/** Team records (src/types/teams.ts). Columns the database fills in and the code never
    reads (timestamps other than `joined_at`, an invitation's status and expiry) are not kept. */
module TeamTypes {

  datatype TeamRole = Owner | Admin | Member {
    function Name(): string {
      match this
      case Owner => "owner"
      case Admin => "admin"
      case Member => "member"
    }
  }

  datatype Team = Team(id: string, name: string, slug: string, createdBy: string)

  datatype TeamMember = TeamMember(id: string, teamId: string, userId: string, role: TeamRole, joinedAt: string)

  /** A row of `team_invitations`; `role` is the stored text. */
  datatype TeamInvitation = TeamInvitation(id: string, teamId: string, email: string, role: string, invitedBy: string)

  datatype TeamWithMembers = TeamWithMembers(team: Team, members: seq<TeamMember>, memberCount: int)
}
