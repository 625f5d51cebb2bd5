/** actions/team-actions.ts: creating a team, and inviting a user to a team by e-mail. The
    invitation creates the user when the e-mail is unknown; it runs no transaction, so a user it
    creates stays even when adding the membership then fails. */
module TeamActions {
  import opened Results
  import opened Schema
  import opened Text
  import opened Auth
  import opened Store

  const AllFieldsRequired := "All fields are required"
  const CreateTeamFailed := "Failed to create team"
  const AlreadyMember := "User is already a member of this team"
  const InviteFailed := "Failed to invite user to team"

  /** `createTeam`: a ScrumMaster (or an Admin) creates a team with a name and a description. */
  method CreateTeam(db: Store, current: Option<User>, name: string, description: string)
    returns (r: Result<Id>)
    requires db.Valid()
    modifies db
    ensures db.Valid()
    ensures var t := old(db.data);
      if RequireRole(current, ScrumMaster).Err? then r == Err(CreateTeamFailed) && db.data == t
      else if name == "" || description == "" then r == Err(AllFieldsRequired) && db.data == t
      else r == Ok(NextId(t)) && db.data == AddTeam(t, name, description, current.value.id)
  {
    var auth := RequireRole(current, ScrumMaster);
    if auth.Err? {
      return Err(CreateTeamFailed);
    }
    if name == "" || description == "" {
      return Err(AllFieldsRequired);
    }
    var id := db.InsertTeam(name, description, auth.value.id);
    r := Ok(id);
  }

  /** A created team gets a fresh id and records its creator; no other team changes. */
  lemma CreatedTeam(t: Tables, name: string, description: string, createdById: Id)
    requires Consistent(t)
    ensures var t' := AddTeam(t, name, description, createdById);
            && NextId(t) !in t.teams && t'.teams.Keys == t.teams.Keys + {NextId(t)}
            && t'.teams[NextId(t)] == Team(name, description, createdById, t'.counter)
            && forall id :: id in t.teams ==> t'.teams[id] == t.teams[id]
  {
    NextIdFresh(t);
  }

  /** The user an invitation goes to, and the store after finding or creating it. An unknown
      e-mail gets a TEAM_MEMBER account named after the part of the address before its first
      `@`. */
  function Invitee(t: Tables, email: string): (Tables, Id) {
    if email in t.userByEmail then (t, t.userByEmail[email])
    else (AddUser(t, BeforeFirst(email, '@'), email, TeamMember), NextId(t))
  }

  /** Making user `userId` a member of team `teamId` with the role label `role`, unless it is one
      already: the result and the store it leaves. */
  function Join(t: Tables, userId: Id, teamId: Id, role: string): (Result<Membership>, Tables) {
    var m := Membership(userId, teamId);
    if m in t.members then (Err(AlreadyMember), t)
    else if teamId !in t.teams then (Err(InviteFailed), t)
    else (Ok(m), AddMember(t, m, role))
  }

  /** `inviteUserToTeam` past its role and field checks: the result and the store it leaves. */
  function Invite(t: Tables, teamId: Id, email: string, role: string): (Result<Membership>, Tables) {
    var (t1, userId) := Invitee(t, email);
    Join(t1, userId, teamId, role)
  }

  /** For a known e-mail (exact match) the invitation goes to that user and creates none. */
  lemma InviteKnownEmail(t: Tables, email: string)
    requires Consistent(t) && !EmailFree(t, email)
    ensures var (t1, userId) := Invitee(t, email);
            t1 == t && userId in t.users && t.users[userId].email == email
  {
  }

  /** For an unknown e-mail the invitation creates exactly one user: a TEAM_MEMBER without a
      password, named after the part of the address before its first `@`. */
  lemma InviteUnknownEmail(t: Tables, email: string)
    requires Consistent(t) && EmailFree(t, email)
    ensures var (t1, userId) := Invitee(t, email);
            && userId == NextId(t) && userId !in t.users
            && t1.users == t.users[userId := User(userId, BeforeFirst(email, '@'), email, None, TeamMember)]
            && |t1.users| == |t.users| + 1
            && t1.members == t.members && t1.teams == t.teams
  {
    NextIdFresh(t);
    assert email !in t.userByEmail;
  }

  /** Without a transaction, an invitation of an unknown e-mail to a missing team fails yet
      keeps the account it created. */
  lemma InviteKeepsCreatedUser(t: Tables, teamId: Id, email: string, role: string)
    requires Consistent(t) && EmailFree(t, email) && teamId !in t.teams
    ensures var (r, t') := Invite(t, teamId, email, role);
            && r == Err(InviteFailed) && NextId(t) !in t.users
            && NextId(t) in t'.users && t'.users[NextId(t)].email == email
  {
    NextIdFresh(t);
    assert email !in t.userByEmail;
  }

  /** The invitation is idempotent: inviting the same e-mail to the same team again changes
      nothing and fails, so the pair never gets a second membership. */
  lemma InviteTwice(t: Tables, teamId: Id, email: string, role: string)
    ensures var (r1, t1) := Invite(t, teamId, email, role);
            var (r2, t2) := Invite(t1, teamId, email, role);
            && t2 == t1 && r2.Err?
            && (r1.Ok? ==> r2 == Err(AlreadyMember))
  {
    var (t1, userId) := Invitee(t, email);
    assert Invitee(t1, email) == (t1, userId);
    var m := Membership(userId, teamId);
    if m !in t1.members && teamId in t1.teams {
      var t2 := AddMember(t1, m, role);
      assert Invite(t, teamId, email, role) == (Ok(m), t2);
      assert Invitee(t2, email) == (t2, userId);
      assert m in t2.members;
    }
  }

  /** The user lookup of `inviteUserToTeam`, creating the user when the e-mail is unknown. */
  method ResolveInvitee(db: Store, email: string) returns (userId: Id)
    requires db.Valid()
    modifies db
    ensures db.Valid() && (db.data, userId) == Invitee(old(db.data), email)
    ensures userId in db.data.users
  {
    var found := db.FindUserByEmail(email);
    if found.Some? {
      userId := found.value;
    } else {
      userId := db.InsertUser(BeforeFirst(email, '@'), email, TeamMember);
    }
  }

  /** `inviteUserToTeam`. */
  method InviteUserToTeam(db: Store, current: Option<User>, teamId: string, email: string, role: string)
    returns (r: Result<Membership>)
    requires db.Valid()
    modifies db
    ensures db.Valid()
    ensures var t := old(db.data);
      if RequireRole(current, ScrumMaster).Err? then r == Err(InviteFailed) && db.data == t
      else if teamId == "" || email == "" || role == "" then r == Err(AllFieldsRequired) && db.data == t
      else (r, db.data) == Invite(t, teamId, email, role)
  {
    var auth := RequireRole(current, ScrumMaster);
    if auth.Err? {
      return Err(InviteFailed);
    }
    if teamId == "" || email == "" || role == "" {
      return Err(AllFieldsRequired);
    }
    var userId := ResolveInvitee(db, email);
    r := JoinTeam(db, userId, teamId, role);
  }

  /** The membership part of `inviteUserToTeam`: a duplicate is refused, and so, by the store,
      is a membership of a missing team. */
  method JoinTeam(db: Store, userId: Id, teamId: Id, role: string) returns (r: Result<Membership>)
    requires db.Valid() && userId in db.data.users
    modifies db
    ensures db.Valid() && (r, db.data) == Join(old(db.data), userId, teamId, role)
  {
    var m := Membership(userId, teamId);
    if m in db.data.members {
      return Err(AlreadyMember);
    }
    if teamId !in db.data.teams {
      // The insert violates the membership's foreign key to its team.
      return Err(InviteFailed);
    }
    db.InsertMember(m, role);
    r := Ok(m);
  }
}
