/** The team service (src/lib/services/teams.service.ts): its `slugify` transform and the
    create, read, invite and remove operations over in-memory `teams`, `team_members` and
    `team_invitations` tables. A `.single()` lookup succeeds only when exactly one row
    matches. The datastore errors of the writes and of the members query are
    `Option<DbError>` parameters, and so are the values the database fills in (ids,
    `joined_at`) and the clock. */
module TeamsService {
  import opened Wrappers
  import opened Strings
  import opened Sorting
  import opened Replace
  import opened ServiceTypes
  import opened TeamTypes

  // ---------------------------------------------------------------------------
  // slugify
  // ---------------------------------------------------------------------------

  /** `\w`: ASCII letters, digits and "_". */
  predicate IsWordChar(c: char) {
    'A' <= c <= 'Z' || 'a' <= c <= 'z' || '0' <= c <= '9' || c == '_'
  }

  /** The characters `/[^\w\s-]/g` does not delete. */
  predicate IsKept(c: char) {
    IsWordChar(c) || IsJsSpace(c) || c == '-'
  }

  /** The class `/[\s_]+/`. */
  predicate IsSeparator(c: char) {
    IsJsSpace(c) || c == '_'
  }

  /** The characters a slug is made of: lower-case ASCII letters, digits and "-". */
  predicate IsSlugChar(c: char) {
    'a' <= c <= 'z' || '0' <= c <= '9' || c == '-'
  }

  /** A well-formed slug: slug characters only, no "--", no "-" at either end. */
  predicate IsSlug(s: string) {
    (forall i :: 0 <= i < |s| ==> IsSlugChar(s[i])) && NoDoubleDash(s) && NoEdgeDash(s)
  }

  /** `slugify`: lower-case, trim, delete what is not a word character, white space or "-",
      turn runs of white space and "_" into "-", squeeze runs of "-", drop a leading and a
      trailing "-". Every slug is well formed: no upper case, white space or "_", no "--" and
      no "-" at either end. */
  function Slugify(name: string): (slug: string)
    ensures IsSlug(slug)
  {
    var c := Filter(Trim(AsciiLower(name)), IsKept);
    KeptStage(name);
    SeparatorStage(c);
    DashStage(CollapseRuns(c, IsSeparator));
    TrimDashes(CollapseRuns(CollapseRuns(c, IsSeparator), IsDash))
  }

  lemma TrimKeepsChars(s: string)
    ensures forall c :: c in Trim(s) ==> c in s
  {
    SliceKeepsChars(s, TrimStart(s), Trim(s));
  }

  /** A prefix of a suffix of `s` holds only characters of `s`. */
  lemma SliceKeepsChars(s: string, t: string, r: string)
    requires |t| <= |s| && t == s[|s| - |t|..] && r <= t
    ensures forall c :: c in r ==> c in s
  {
    forall c | c in r ensures c in s {
      var i :| 0 <= i < |r| && r[i] == c;
      assert t[i] == c;
      assert s[|s| - |t| + i] == c;
    }
  }

  /** After lower-casing, trimming and filtering, only kept lower-case characters remain. */
  lemma KeptStage(name: string)
    ensures var c := Filter(Trim(AsciiLower(name)), IsKept);
            forall i :: 0 <= i < |c| ==> !IsAsciiUpper(c[i]) && IsKept(c[i])
  {
    var a := AsciiLower(name);
    var b := Trim(a);
    TrimKeepsChars(a);
    var c := Filter(b, IsKept);
    forall i | 0 <= i < |c| ensures !IsAsciiUpper(c[i]) && IsKept(c[i]) {
      assert c[i] in b;
    }
  }

  /** Turning separator runs into "-" leaves only slug characters. */
  lemma SeparatorStage(c: string)
    requires forall i :: 0 <= i < |c| ==> !IsAsciiUpper(c[i]) && IsKept(c[i])
    ensures var d := CollapseRuns(c, IsSeparator); forall i :: 0 <= i < |d| ==> IsSlugChar(d[i])
  {
    var d := CollapseRuns(c, IsSeparator);
    forall i | 0 <= i < |d| ensures IsSlugChar(d[i]) {
      if d[i] != '-' {
        var j :| 0 <= j < |c| && c[j] == d[i];
        KeptIsSlugChar(c[j]);
      }
    }
  }

  /** Squeezing "-" runs keeps slug characters and leaves no "--". */
  lemma DashStage(d: string)
    requires forall i :: 0 <= i < |d| ==> IsSlugChar(d[i])
    ensures var e := CollapseRuns(d, IsDash); (forall i :: 0 <= i < |e| ==> IsSlugChar(e[i])) && NoDoubleDash(e)
  {
    var e := CollapseRuns(d, IsDash);
    CollapseNoDoubleDash(d, IsDash);
    forall i | 0 <= i < |e| ensures IsSlugChar(e[i]) {
      if e[i] != '-' {
        var j :| 0 <= j < |d| && d[j] == e[i];
      }
    }
  }

  /** A kept, lower-case character that is not a separator can stay in a slug. */
  lemma KeptIsSlugChar(ch: char)
    requires IsKept(ch) && !IsAsciiUpper(ch) && !IsSeparator(ch)
    ensures IsSlugChar(ch)
  {
  }

  lemma SlugCharFacts(c: char)
    requires IsSlugChar(c)
    ensures !IsJsSpace(c) && !IsAsciiUpper(c) && IsKept(c) && !IsSeparator(c)
  {
  }

  /** Each stage leaves a well-formed slug as it is. */
  lemma StagesFixSlug(t: string)
    requires IsSlug(t)
    ensures AsciiLower(t) == t && Trim(t) == t && Filter(t, IsKept) == t
    ensures CollapseRuns(t, IsSeparator) == t && CollapseRuns(t, IsDash) == t && TrimDashes(t) == t
  {
    forall i | 0 <= i < |t| ensures !IsJsSpace(t[i]) && !IsAsciiUpper(t[i]) && IsKept(t[i]) && !IsSeparator(t[i]) {
      SlugCharFacts(t[i]);
    }
    assert AsciiLower(t) == t;
    assert TrimStart(t) == t;
    CollapseFixesClean(t, IsSeparator);
    CollapseFixesSingleDashes(t, IsDash);
  }

  /** Slugifying a slug changes nothing. */
  lemma SlugifyIdempotent(name: string)
    ensures Slugify(Slugify(name)) == Slugify(name)
  {
    var t := Slugify(name);
    StagesFixSlug(t);
  }

  /** The slug `createTeam` stores: the slugified name, or "team-" and the clock in base 36
      when the name slugifies to nothing. */
  function TeamSlug(name: string, now: nat): (slug: string)
    ensures Slugify(name) != "" ==> slug == Slugify(name)
    ensures Slugify(name) == "" ==> slug == "team-" + NatToRadix(now, 36)
  {
    var s := Slugify(name);
    if s != "" then s else "team-" + NatToRadix(now, 36)
  }

  /** The stored slug is never empty and always well formed, fallback included. */
  lemma TeamSlugShape(name: string, now: nat)
    ensures TeamSlug(name, now) != "" && IsSlug(TeamSlug(name, now))
  {
    if Slugify(name) == "" {
      var digits := NatToRadix(now, 36);
      forall i | 0 <= i < |digits| ensures IsSlugChar(digits[i]) && digits[i] != '-' {
        DigitIsSlugChar(digits[i]);
      }
      FallbackShape(digits);
    }
  }

  lemma DigitIsSlugChar(c: char)
    requires DigitValue(c) < 36
    ensures IsSlugChar(c) && c != '-'
  {
  }

  lemma FallbackShape(digits: string)
    requires |digits| > 0 && forall i :: 0 <= i < |digits| ==> IsSlugChar(digits[i]) && digits[i] != '-'
    ensures IsSlug("team-" + digits)
  {
    var s := "team-" + digits;
    assert forall i :: 5 <= i < |s| ==> s[i] == digits[i - 5];
  }

  // ---------------------------------------------------------------------------
  // Table queries
  // ---------------------------------------------------------------------------

  /** The rows satisfying `p`, in table order. */
  function Where<T(!new)>(s: seq<T>, p: T -> bool): (r: seq<T>)
    ensures forall x :: x in r <==> x in s && p(x)
    ensures |r| <= |s|
    decreases |s|
  {
    if |s| == 0 then []
    else if p(s[0]) then [s[0]] + Where(s[1..], p)
    else Where(s[1..], p)
  }

  /** `.single()`: the row when exactly one matches. */
  function Single<T>(rows: seq<T>): (r: Option<T>)
    ensures r.Some? <==> |rows| == 1
    ensures r.Some? ==> rows == [r.value]
  {
    if |rows| == 1 then Some(rows[0]) else None
  }

  /** A `.single()` lookup as the services read it (`if (error || !data)`): the row when the
      query itself succeeds and exactly one row matches. A query that fails (`fails`: a
      timeout, a lost connection) is answered like a missing row. */
  function Lookup<T>(rows: seq<T>, fails: bool): (r: Option<T>)
    ensures fails ==> r.None?
    ensures r.Some? <==> !fails && |rows| == 1
    ensures r.Some? ==> rows == [r.value]
  {
    if fails then None else Single(rows)
  }

  /** The membership rows of `userId` in `teamId`. */
  function Membership(members: seq<TeamMember>, teamId: string, userId: string): (r: seq<TeamMember>)
    ensures forall m :: m in r <==> m in members && m.teamId == teamId && m.userId == userId
  {
    Where(members, (m: TeamMember) => m.teamId == teamId && m.userId == userId)
  }

  /** The rows of `team_members` with id `memberId` in `teamId`. */
  function MemberRows(members: seq<TeamMember>, teamId: string, memberId: string): (r: seq<TeamMember>)
    ensures forall m :: m in r <==> m in members && m.teamId == teamId && m.id == memberId
  {
    Where(members, (m: TeamMember) => m.teamId == teamId && m.id == memberId)
  }

  /** The table after `delete().eq("id", memberId).eq("team_id", teamId)`. */
  function WithoutMember(members: seq<TeamMember>, teamId: string, memberId: string): (r: seq<TeamMember>)
    ensures forall m :: m in r <==> m in members && !(m.teamId == teamId && m.id == memberId)
  {
    Where(members, (m: TeamMember) => !(m.teamId == teamId && m.id == memberId))
  }

  function TeamMembersOf(members: seq<TeamMember>, teamId: string): (r: seq<TeamMember>)
    ensures forall m :: m in r <==> m in members && m.teamId == teamId
  {
    Where(members, (m: TeamMember) => m.teamId == teamId)
  }

  function TeamsWithId(teams: seq<Team>, teamId: string): (r: seq<Team>)
    ensures forall t :: t in r <==> t in teams && t.id == teamId
  {
    Where(teams, (t: Team) => t.id == teamId)
  }

  /** The table after `delete().eq("id", teamId)`. */
  function WithoutTeam(teams: seq<Team>, teamId: string): (r: seq<Team>)
    ensures forall t :: t in r <==> t in teams && t.id != teamId
    ensures (forall i :: 0 <= i < |teams| ==> teams[i].id != teamId) ==> r == teams
    decreases |teams|
  {
    if |teams| == 0 then []
    else if teams[0].id == teamId then WithoutTeam(teams[1..], teamId)
    else [teams[0]] + WithoutTeam(teams[1..], teamId)
  }

  function JoinedAt(m: TeamMember): string { m.joinedAt }

  /** Owners and admins manage a team; only a plain member may not. */
  predicate CanManage(role: TeamRole)
    ensures CanManage(role) <==> !role.Member?
  {
    role == Owner || role == Admin
  }

  /** The membership checks `inviteMember` makes before writing; `inviterFails` is an error of
      the inviter's membership lookup. */
  function InviteCheck(members: seq<TeamMember>, teamId: string, userId: string, inviterFails: bool): (e: Option<ServiceError>)
    ensures inviterFails ==> e == Some(ServiceError("FORBIDDEN", "You are not a member of this team", None))
    ensures Lookup(Membership(members, teamId, userId), inviterFails).None? ==>
              e == Some(ServiceError("FORBIDDEN", "You are not a member of this team", None))
    ensures Lookup(Membership(members, teamId, userId), inviterFails).Some? &&
            !CanManage(Lookup(Membership(members, teamId, userId), inviterFails).value.role) ==>
              e == Some(ServiceError("FORBIDDEN", "Only owners and admins can invite members", None))
    ensures e.None? <==>
              !inviterFails &&
              exists m :: m in members && m.teamId == teamId && m.userId == userId && CanManage(m.role)
                && Membership(members, teamId, userId) == [m]
  {
    var inviter := Lookup(Membership(members, teamId, userId), inviterFails);
    if inviter.None? then Some(ServiceError("FORBIDDEN", "You are not a member of this team", None))
    else if !CanManage(inviter.value.role) then Some(ServiceError("FORBIDDEN", "Only owners and admins can invite members", None))
    else
      assert inviter.value in Membership(members, teamId, userId);
      None
  }

  /** `input.role === "owner" ? "admin" : input.role`. */
  function InviteRole(role: TeamRole): (r: TeamRole)
    ensures r != Owner
    ensures role != Owner ==> r == role
  {
    if role == Owner then Admin else role
  }

  /** The checks `removeMember` makes before deleting: the requester must be an owner or an
      admin of the team, the target must be a single row of that team, and not its owner.
      `requesterFails` and `targetFails` are errors of the two lookups. */
  function RemoveCheck(members: seq<TeamMember>, teamId: string, userId: string, memberId: string,
                       requesterFails: bool, targetFails: bool): (e: Option<ServiceError>)
    ensures requesterFails ==> e == Some(ServiceError("FORBIDDEN", "You are not a member of this team", None))
    ensures Lookup(Membership(members, teamId, userId), requesterFails).None? ==>
              e == Some(ServiceError("FORBIDDEN", "You are not a member of this team", None))
    ensures Lookup(Membership(members, teamId, userId), requesterFails).Some? &&
            !CanManage(Lookup(Membership(members, teamId, userId), requesterFails).value.role) ==>
              e == Some(ServiceError("FORBIDDEN", "Only owners and admins can remove members", None))
    ensures Lookup(Membership(members, teamId, userId), requesterFails).Some? &&
            CanManage(Lookup(Membership(members, teamId, userId), requesterFails).value.role) ==>
              (Lookup(MemberRows(members, teamId, memberId), targetFails).None? ==>
                 e == Some(ServiceError("NOT_FOUND", "Team member not found", None))) &&
              (Lookup(MemberRows(members, teamId, memberId), targetFails).Some? &&
               Lookup(MemberRows(members, teamId, memberId), targetFails).value.role == Owner ==>
                 e == Some(ServiceError("FORBIDDEN", "Cannot remove the team owner", None)))
    ensures e.None? <==>
              !requesterFails && !targetFails &&
              Single(Membership(members, teamId, userId)).Some? && CanManage(Single(Membership(members, teamId, userId)).value.role) &&
              Single(MemberRows(members, teamId, memberId)).Some? && Single(MemberRows(members, teamId, memberId)).value.role != Owner
  {
    var requester := Lookup(Membership(members, teamId, userId), requesterFails);
    var target := Lookup(MemberRows(members, teamId, memberId), targetFails);
    if requester.None? then Some(ServiceError("FORBIDDEN", "You are not a member of this team", None))
    else if !CanManage(requester.value.role) then Some(ServiceError("FORBIDDEN", "Only owners and admins can remove members", None))
    else if target.None? then Some(ServiceError("NOT_FOUND", "Team member not found", None))
    else if target.value.role == Owner then Some(ServiceError("FORBIDDEN", "Cannot remove the team owner", None))
    else None
  }

  /** A removal that passes the role checks deletes no owner row, so every team keeps its owner. */
  lemma RemovalKeepsOwners(members: seq<TeamMember>, teamId: string, userId: string, memberId: string, m: TeamMember)
    requires RemoveCheck(members, teamId, userId, memberId, false, false).None?
    requires m in members && m.role == Owner
    ensures m in WithoutMember(members, teamId, memberId)
  {
  }

  /** A removal that passes the role checks deletes exactly the target row's matches and keeps
      every other row. */
  lemma RemovalIsTargeted(members: seq<TeamMember>, teamId: string, userId: string, memberId: string, m: TeamMember)
    requires RemoveCheck(members, teamId, userId, memberId, false, false).None?
    requires m in members
    ensures m !in WithoutMember(members, teamId, memberId) <==> m == Single(MemberRows(members, teamId, memberId)).value
  {
    if m !in WithoutMember(members, teamId, memberId) {
      assert m in MemberRows(members, teamId, memberId);
    }
  }

  // ---------------------------------------------------------------------------
  // The tables and the operations
  // ---------------------------------------------------------------------------

  class TeamStore {
    var teams: seq<Team>
    var members: seq<TeamMember>
    var invitations: seq<TeamInvitation>

    constructor(teams0: seq<Team>, members0: seq<TeamMember>, invitations0: seq<TeamInvitation>)
      ensures teams == teams0 && members == members0 && invitations == invitations0
    {
      teams := teams0;
      members := members0;
      invitations := invitations0;
    }

    /** `createTeam`: inserts the team, then its creator as owner; when the second insert
        fails the team row is deleted again. A unique violation ("23505") reports CONFLICT. */
    method CreateTeam(userId: string, name: string, now: nat, teamId: string, memberId: string, joinedAt: string,
                      teamInsertError: Option<DbError>, memberInsertError: Option<DbError>,
                      rollbackError: Option<DbError>) returns (r: ServiceResult<Team>)
      modifies this
      ensures invitations == old(invitations)
      ensures var team := Team(teamId, name, TeamSlug(name, now), userId);
              if teamInsertError.Some? then
                teams == old(teams) && members == old(members) &&
                r == (if teamInsertError.value.code == "23505"
                      then DbFailure("CONFLICT", "A team with this slug already exists", teamInsertError.value)
                      else DbFailure("CREATE_FAILED", "Failed to create team", teamInsertError.value))
              else if memberInsertError.Some? then
                r == DbFailure("CREATE_FAILED", "Failed to add creator as team owner", memberInsertError.value) &&
                members == old(members) &&
                (rollbackError.None? ==> teams == WithoutTeam(old(teams) + [team], teamId)) &&
                (rollbackError.Some? ==> teams == old(teams) + [team])
              else
                r == Success(team) && teams == old(teams) + [team] &&
                members == old(members) + [TeamMember(memberId, teamId, userId, Owner, joinedAt)]
    {
      if teamInsertError.Some? {
        if teamInsertError.value.code == "23505" {
          return DbFailure("CONFLICT", "A team with this slug already exists", teamInsertError.value);
        }
        return DbFailure("CREATE_FAILED", "Failed to create team", teamInsertError.value);
      }
      r := InsertWithOwner(Team(teamId, name, TeamSlug(name, now), userId), memberId, joinedAt,
                           memberInsertError, rollbackError);
    }

    /** The second half of `createTeam`, once the team row is in: the owner row, or the
        team row deleted again when that insert fails. The delete's own error is not read:
        when it fails the team stays, with no member. */
    method InsertWithOwner(team: Team, memberId: string, joinedAt: string, memberInsertError: Option<DbError>,
                           rollbackError: Option<DbError>)
      returns (r: ServiceResult<Team>)
      modifies this
      ensures invitations == old(invitations)
      ensures memberInsertError.Some? ==>
                r == DbFailure("CREATE_FAILED", "Failed to add creator as team owner", memberInsertError.value) &&
                members == old(members) &&
                (rollbackError.None? ==> teams == WithoutTeam(old(teams) + [team], team.id)) &&
                (rollbackError.Some? ==> teams == old(teams) + [team])
      ensures memberInsertError.None? ==>
                r == Success(team) && teams == old(teams) + [team] &&
                members == old(members) + [TeamMember(memberId, team.id, team.createdBy, Owner, joinedAt)]
    {
      teams := teams + [team];
      if memberInsertError.Some? {
        if rollbackError.None? {
          teams := WithoutTeam(teams, team.id);
        }
        return DbFailure("CREATE_FAILED", "Failed to add creator as team owner", memberInsertError.value);
      }
      members := members + [TeamMember(memberId, team.id, team.createdBy, Owner, joinedAt)];
      r := Success(team);
    }

    /** `getTeam`: only a member sees the team, with its members in joining order.
        `membershipFails` and `teamFails` are errors of the two `.single()` lookups, and
        `membersError` the outcome of the member query. */
    function GetTeam(userId: string, teamId: string, membershipFails: bool, teamFails: bool,
                     membersError: Option<DbError>): (r: ServiceResult<TeamWithMembers>)
      reads this
      ensures Lookup(Membership(members, teamId, userId), membershipFails).None? ==>
                r == Failure(ServiceError("NOT_FOUND", "Team not found or you are not a member", None))
      ensures Lookup(Membership(members, teamId, userId), membershipFails).Some? &&
              Lookup(TeamsWithId(teams, teamId), teamFails).None? ==>
                r == Failure(ServiceError("NOT_FOUND", "Team not found", None))
      ensures Lookup(Membership(members, teamId, userId), membershipFails).Some? &&
              Lookup(TeamsWithId(teams, teamId), teamFails).Some? ==>
                (membersError.Some? ==> r == DbFailure("QUERY_FAILED", "Failed to fetch team members", membersError.value)) &&
                (membersError.None? ==> r.Success?)
      ensures r.Success? ==>
                !membershipFails && !teamFails &&
                (exists m :: m in members && m.teamId == teamId && m.userId == userId) &&
                r.data.team in teams && r.data.team.id == teamId &&
                r.data.memberCount == |r.data.members| &&
                SortedBy(r.data.members, JoinedAt, false) &&
                multiset(r.data.members) == multiset(TeamMembersOf(members, teamId))
    {
      var membership := Lookup(Membership(members, teamId, userId), membershipFails);
      var team := Lookup(TeamsWithId(teams, teamId), teamFails);
      if membership.None? then Failure(ServiceError("NOT_FOUND", "Team not found or you are not a member", None))
      else if team.None? then Failure(ServiceError("NOT_FOUND", "Team not found", None))
      else if membersError.Some? then DbFailure("QUERY_FAILED", "Failed to fetch team members", membersError.value)
      else
        assert membership.value in Membership(members, teamId, userId);
        assert team.value in TeamsWithId(teams, teamId);
        var listed := SortBy(TeamMembersOf(members, teamId), JoinedAt, false);
        Success(TeamWithMembers(team.value, listed, |listed|))
    }

    /** `inviteMember`: an owner or admin of the team records an invitation; an owner role is
        stored as admin. */
    method InviteMember(userId: string, teamId: string, email: string, role: TeamRole, invitationId: string,
                        inviterFails: bool, insertError: Option<DbError>) returns (r: ServiceResult<bool>)
      modifies this
      ensures teams == old(teams) && members == old(members)
      ensures InviteCheck(members, teamId, userId, inviterFails).Some? ==>
                r == Failure(InviteCheck(members, teamId, userId, inviterFails).value) && invitations == old(invitations)
      ensures InviteCheck(members, teamId, userId, inviterFails).None? && insertError.Some? ==>
                r == DbFailure("INVITE_FAILED", "Failed to create invitation", insertError.value) &&
                invitations == old(invitations)
      ensures InviteCheck(members, teamId, userId, inviterFails).None? && insertError.None? ==>
                r == Success(true) &&
                invitations == old(invitations) + [TeamInvitation(invitationId, teamId, email, InviteRole(role).Name(), userId)]
    {
      var check := InviteCheck(members, teamId, userId, inviterFails);
      if check.Some? {
        return Failure(check.value);
      }
      if insertError.Some? {
        return DbFailure("INVITE_FAILED", "Failed to create invitation", insertError.value);
      }
      invitations := invitations + [TeamInvitation(invitationId, teamId, email, InviteRole(role).Name(), userId)];
      r := Success(true);
    }

    /** `removeMember`: after the role checks, deletes the target row. */
    method RemoveMember(userId: string, teamId: string, memberId: string, requesterFails: bool, targetFails: bool,
                        deleteError: Option<DbError>) returns (r: ServiceResult<bool>)
      modifies this
      ensures teams == old(teams) && invitations == old(invitations)
      ensures RemoveCheck(old(members), teamId, userId, memberId, requesterFails, targetFails).Some? ==>
                r == Failure(RemoveCheck(old(members), teamId, userId, memberId, requesterFails, targetFails).value) && members == old(members)
      ensures RemoveCheck(old(members), teamId, userId, memberId, requesterFails, targetFails).None? && deleteError.Some? ==>
                r == DbFailure("DELETE_FAILED", "Failed to remove team member", deleteError.value) && members == old(members)
      ensures RemoveCheck(old(members), teamId, userId, memberId, requesterFails, targetFails).None? && deleteError.None? ==>
                r == Success(true) && members == WithoutMember(old(members), teamId, memberId)
      ensures forall m :: m in old(members) && m.role == Owner ==> m in members
    {
      var check := RemoveCheck(members, teamId, userId, memberId, requesterFails, targetFails);
      if check.Some? {
        return Failure(check.value);
      }
      if deleteError.Some? {
        return DbFailure("DELETE_FAILED", "Failed to remove team member", deleteError.value);
      }
      forall m | m in members && m.role == Owner ensures m in WithoutMember(members, teamId, memberId) {
        RemovalKeepsOwners(members, teamId, userId, memberId, m);
      }
      members := WithoutMember(members, teamId, memberId);
      r := Success(true);
    }
  }

  /** With distinct team ids, the rollback leaves the teams table as it was. */
  lemma {:induction false} RollbackRestoresTeams(teams: seq<Team>, team: Team)
    requires forall i :: 0 <= i < |teams| ==> teams[i].id != team.id
    ensures WithoutTeam(teams + [team], team.id) == teams
    decreases |teams|
  {
    if |teams| > 0 {
      assert (teams + [team])[1..] == teams[1..] + [team];
      RollbackRestoresTeams(teams[1..], team);
    }
  }
}
