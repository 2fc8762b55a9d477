/** The team server actions (src/lib/actions/teams.actions.ts): a second slug transform and
    three actions that write the team tables directly, with no role checks. The signed-in
    user is `user` (None when the session lookup fails); a failed write is the error message
    the database returns. */
module TeamsActions {
  import opened Wrappers
  import opened Strings
  import opened Replace
  import opened ServiceTypes
  import opened TeamTypes
  import opened TeamsService

  /** The class `/[^a-z0-9]+/`. */
  predicate IsNotAlnum(c: char) {
    !('a' <= c <= 'z' || '0' <= c <= '9')
  }

  /** The action's slug: lower-case, each run of characters other than `[a-z0-9]` becomes
      one "-", then a leading and a trailing "-" is dropped. The slugs are well formed: only
      `[a-z0-9-]`, no "--", no "-" at either end. */
  function ActionSlug(name: string): (slug: string)
    ensures IsSlug(slug)
  {
    var c := CollapseRuns(AsciiLower(name), IsNotAlnum);
    CollapseNoDoubleDash(AsciiLower(name), IsNotAlnum);
    assert forall i :: 0 <= i < |c| ==> IsSlugChar(c[i]);
    TrimDashes(c)
  }

  /** Applying the action's slug twice is applying it once. */
  lemma ActionSlugIdempotent(name: string)
    ensures ActionSlug(ActionSlug(name)) == ActionSlug(name)
  {
    var t := ActionSlug(name);
    StagesFixSlug(t);
    CollapseFixesSingleDashes(t, IsNotAlnum);
  }

  /** The two transforms disagree: the service deletes punctuation, the action turns it into
      a "-". */
  lemma SlugTransformsDiffer()
    ensures Slugify("a.b") == "ab" && ActionSlug("a.b") == "a-b"
  {
    ServiceSlugOfDot();
    ActionSlugOfDot();
  }

  lemma LowerOfDot()
    ensures AsciiLower("a.b") == "a.b"
  {
    var r := AsciiLower("a.b");
    assert r[0] == 'a' && r[1] == '.' && r[2] == 'b';
  }

  lemma ServiceSlugOfDot()
    ensures Slugify("a.b") == "ab"
  {
    LowerOfDot();
    TrimOfDot();
    FilterOfDot();
    CollapseFixesClean("ab", IsSeparator);
    CollapseFixesClean("ab", IsDash);
    assert NoEdgeDash("ab");
  }

  lemma TrimOfDot()
    ensures Trim("a.b") == "a.b"
  {
    var s := "a.b";
    assert !IsJsSpace('a') && !IsJsSpace('b');
    assert TrimStart(s) == s;
    assert TrimEnd(s) == s;
  }

  lemma FilterOfDot()
    ensures Filter("a.b", IsKept) == "ab"
  {
    var s := "a.b";
    assert s[1..] == ".b" && s[2..] == "b" && "b"[1..] == "";
    assert Filter("b", IsKept) == "b";
    assert Filter(".b", IsKept) == "b";
  }

  lemma ActionSlugOfDot()
    ensures ActionSlug("a.b") == "a-b"
  {
    LowerOfDot();
    CollapseOfDot();
    assert NoEdgeDash("a-b");
  }

  lemma CollapseOfDot()
    ensures CollapseRuns("a.b", IsNotAlnum) == "a-b"
  {
    var s := "a.b";
    assert !IsNotAlnum(s[0]) && s[1..] == ".b";
    CollapseOfDotB();
    assert CollapseRuns(s, IsNotAlnum) == [s[0]] + CollapseRuns(".b", IsNotAlnum);
  }

  lemma CollapseOfDotB()
    ensures CollapseRuns(".b", IsNotAlnum) == "-b"
  {
    var d := DropRun(".b", IsNotAlnum);
    assert d == "b" by {
      assert IsNotAlnum(".b"[0]) && ".b"[1..] == "b";
      assert !IsNotAlnum('b');
    }
    CollapseFixesClean(d, IsNotAlnum);
    assert IsNotAlnum(".b"[0]);
  }

  datatype ActionResult<T> = ActionOk(data: T) | ActionErr(error: string)

  /** `createTeamAction`: inserts the team and then, ignoring the outcome, the creator as
      owner. */
  method CreateTeamAction(store: TeamStore, user: Option<string>, name: string, teamId: string, memberId: string,
                          joinedAt: string, teamInsertError: Option<string>, memberInsertFails: bool)
    returns (r: ActionResult<Team>)
    modifies store
    ensures store.invitations == old(store.invitations)
    ensures user.None? ==> r == ActionErr("Not authenticated") && unchanged(store)
    ensures user.Some? && teamInsertError.Some? ==> r == ActionErr(teamInsertError.value) && unchanged(store)
    ensures user.Some? && teamInsertError.None? ==>
              r == ActionOk(Team(teamId, name, ActionSlug(name), user.value)) &&
              store.teams == old(store.teams) + [r.data] &&
              store.members == old(store.members) + (if memberInsertFails then [] else [TeamMember(memberId, teamId, user.value, Owner, joinedAt)])
  {
    if user.None? {
      return ActionErr("Not authenticated");
    }
    var slug := ActionSlug(name);
    if teamInsertError.Some? {
      return ActionErr(teamInsertError.value);
    }
    var team := Team(teamId, name, slug, user.value);
    store.teams := store.teams + [team];
    if !memberInsertFails {
      store.members := store.members + [TeamMember(memberId, teamId, user.value, Owner, joinedAt)];
    }
    r := ActionOk(team);
  }

  /** `inviteMemberAction`: records the invitation with the role exactly as given. */
  method InviteMemberAction(store: TeamStore, user: Option<string>, teamId: string, email: string, role: string,
                            invitationId: string, insertError: Option<string>) returns (r: ActionResult<string>)
    modifies store
    ensures store.teams == old(store.teams) && store.members == old(store.members)
    ensures user.None? ==> r == ActionErr("Not authenticated") && unchanged(store)
    ensures user.Some? && insertError.Some? ==> r == ActionErr(insertError.value) && unchanged(store)
    ensures user.Some? && insertError.None? ==>
              r == ActionOk(invitationId) &&
              store.invitations == old(store.invitations) + [TeamInvitation(invitationId, teamId, email, role, user.value)]
  {
    if user.None? {
      return ActionErr("Not authenticated");
    }
    if insertError.Some? {
      return ActionErr(insertError.value);
    }
    store.invitations := store.invitations + [TeamInvitation(invitationId, teamId, email, role, user.value)];
    r := ActionOk(invitationId);
  }

  /** `removeMemberAction`: deletes the row with no role check. */
  method RemoveMemberAction(store: TeamStore, user: Option<string>, teamId: string, memberId: string,
                            deleteError: Option<string>) returns (r: ActionResult<()>)
    modifies store
    ensures store.teams == old(store.teams) && store.invitations == old(store.invitations)
    ensures user.None? ==> r == ActionErr("Not authenticated") && unchanged(store)
    ensures user.Some? && deleteError.Some? ==> r == ActionErr(deleteError.value) && unchanged(store)
    ensures user.Some? && deleteError.None? ==>
              r == ActionOk(()) && store.members == WithoutMember(old(store.members), teamId, memberId)
  {
    if user.None? {
      return ActionErr("Not authenticated");
    }
    if deleteError.Some? {
      return ActionErr(deleteError.value);
    }
    store.members := WithoutMember(store.members, teamId, memberId);
    r := ActionOk(());
  }

  /** Where the service refuses, the unchecked action goes ahead: an owner row that
      `removeMember` protects is deleted by `removeMemberAction`, and an owner invitation the
      service downgrades is stored as "owner". */
  lemma ActionsSkipServiceRules()
    ensures var members := [TeamMember("m1", "t1", "u1", Owner, "")];
            RemoveCheck(members, "t1", "u1", "m1", false, false) == Some(ServiceError("FORBIDDEN", "Cannot remove the team owner", None))
            && WithoutMember(members, "t1", "m1") == []
    ensures InviteRole(Owner).Name() == "admin" && Owner.Name() == "owner"
  {
    var members := [TeamMember("m1", "t1", "u1", Owner, "")];
    assert Membership(members, "t1", "u1") == [members[0]];
    assert MemberRows(members, "t1", "m1") == [members[0]];
    assert WithoutMember(members, "t1", "m1") == [];
  }
}
