/** app/api/teams/route.ts: the team list (`GET`) and team creation (`POST`). The list shows a
    TEAM_MEMBER only its own teams and returns each team newest first with one entry per member,
    carrying the role label of the membership, and the names of its linked projects. */
module TeamsRoute {
  import opened Results
  import opened Schema
  import opened Auth
  import opened Store
  import opened Ordering

  const Ok200 := 200
  const Created201 := 201
  const ServerError500 := 500

  const FetchFailed := "Failed to fetch teams"
  const CreateFailed := "Failed to create team"

  /** The `where` object of the query; `memberId` stands for `members: { some: { userId } }`. */
  datatype TeamWhere = TeamWhere(memberId: Option<Id>)

  /** How the store applies a where clause to team `id`. */
  predicate Admits(t: Tables, w: TeamWhere, id: Id) {
    w.memberId.None? || Membership(w.memberId.value, id) in t.members
  }

  /** A TEAM_MEMBER is shown only the teams it belongs to; the other roles see every team. */
  method BuildWhere(user: User) returns (w: TeamWhere)
    ensures forall t: Tables, id :: Admits(t, w, id) <==> (user.role == TeamMember ==> Membership(user.id, id) in t.members)
  {
    w := TeamWhere(None);
    if user.role == TeamMember {
      w := w.(memberId := Some(user.id));
    }
  }

  /** A member of a team as the list shows it: the user's id and name, and the membership's role. */
  datatype MemberEntry = MemberEntry(id: Id, name: string, role: string)

  /** One entry of the list. The store gives the members in no particular order, so they are a set
      here; the creator's profile is not part of this model. */
  datatype TeamRow = TeamRow(id: Id, name: string, description: string, members: set<MemberEntry>,
                             projects: seq<string>, createdAt: nat)

  /** Team `id`, the users of its memberships and the projects of its links are stored. */
  predicate Resolvable(t: Tables, id: Id) {
    && id in t.teams
    && (forall m :: m in t.members && m.teamId == id ==> m.userId in t.users)
    && (forall l :: l in LinksOfTeam(t, id) ==> l.projectId in t.projects)
  }

  /** The member entry of membership `m`. */
  function MemberOf(t: Tables, m: Membership): (e: MemberEntry)
    requires m in t.members && m.userId in t.users
    ensures e.id == m.userId && e.name == t.users[m.userId].name && e.role == t.members[m]
  {
    MemberEntry(m.userId, t.users[m.userId].name, t.members[m])
  }

  /** The member entries of team `id`: exactly one per membership of the team. */
  function Members(t: Tables, id: Id): (r: set<MemberEntry>)
    requires Resolvable(t, id)
    ensures forall m :: m in t.members && m.teamId == id ==> MemberOf(t, m) in r
    ensures forall e :: e in r ==> exists m :: m in t.members && m.teamId == id && e == MemberOf(t, m)
  {
    set m | m in t.members && m.teamId == id :: MemberOf(t, m)
  }

  /** Distinct memberships of one team give distinct entries, so the list shows as many members
      as the team has. */
  lemma MembersCounted(t: Tables, id: Id)
    requires Resolvable(t, id)
    ensures |Members(t, id)| == MemberCount(t, id)
  {
    var ms := set m | m in t.members && m.teamId == id;
    assert Members(t, id) == set m | m in ms :: MemberOf(t, m);
    ImageSize(t, ms);
  }

  lemma {:induction false} ImageSize(t: Tables, ms: set<Membership>)
    requires forall m :: m in ms ==> m in t.members && m.userId in t.users
    requires forall m, n :: m in ms && n in ms && m.userId == n.userId ==> m == n
    ensures |set m | m in ms :: MemberOf(t, m)| == |ms|
    decreases |ms|
  {
    if ms != {} {
      var m :| m in ms;
      var rest := ms - {m};
      ImageSize(t, rest);
      assert (set n | n in ms :: MemberOf(t, n)) == (set n | n in rest :: MemberOf(t, n)) + {MemberOf(t, m)};
      assert MemberOf(t, m) !in (set n | n in rest :: MemberOf(t, n));
    }
  }

  /** The names of the projects of `links`, in the links' order. */
  function ProjectNames(t: Tables, links: seq<ProjectTeam>): (names: seq<string>)
    requires forall l :: l in links ==> l.projectId in t.projects
    ensures |names| == |links| && forall i :: 0 <= i < |links| ==> names[i] == t.projects[links[i].projectId].name
  {
    seq(|links|, i requires 0 <= i < |links| => t.projects[links[i].projectId].name)
  }

  /** The entry for team `id`: its own fields, its members, and one project name per link in the
      links' order. */
  function Entry(t: Tables, id: Id): (r: TeamRow)
    requires Resolvable(t, id)
    ensures var team := t.teams[id];
            && r.id == id && r.name == team.name && r.description == team.description
            && r.createdAt == team.createdAt && r.members == Members(t, id)
            && |r.projects| == |LinksOfTeam(t, id)|
            && forall i :: 0 <= i < |r.projects| ==> r.projects[i] == t.projects[LinksOfTeam(t, id)[i].projectId].name
  {
    var team := t.teams[id];
    TeamRow(id, team.name, team.description, Members(t, id), ProjectNames(t, LinksOfTeam(t, id)), team.createdAt)
  }

  function IdsOf(rows: seq<TeamRow>): (ids: seq<Id>)
    ensures |ids| == |rows| && forall i :: 0 <= i < |rows| ==> ids[i] == rows[i].id
  {
    seq(|rows|, i requires 0 <= i < |rows| => rows[i].id)
  }

  /** Every stored team of a consistent store can be listed. */
  lemma AllResolvable(t: Tables)
    requires Consistent(t)
    ensures forall id :: id in t.teams ==> Resolvable(t, id)
  {
  }

  /** A list whose ids have the multiset of a set lists no team twice. */
  lemma DistinctRows(rows: seq<TeamRow>, ids: set<Id>)
    requires multiset(IdsOf(rows)) == multiset(ids)
    ensures forall i, j :: 0 <= i < j < |rows| ==> rows[i].id != rows[j].id
  {
    EachOnce(IdsOf(rows), ids);
  }

  /** `findMany({ where: w, orderBy: { createdAt: "desc" } })` followed by the formatting of each
      team found. */
  method Select(t: Tables, w: TeamWhere) returns (rows: seq<TeamRow>)
    requires forall id :: id in t.teams ==> Resolvable(t, id)
    ensures forall i :: 0 <= i < |rows| ==> Resolvable(t, rows[i].id) && rows[i] == Entry(t, rows[i].id)
    ensures multiset(IdsOf(rows)) == multiset(set id | id in t.teams && Admits(t, w, id))
    ensures NewestFirst(rows, (r: TeamRow) => r.createdAt)
  {
    var matched := set id | id in t.teams && Admits(t, w, id);
    var createdAt := (id: Id) => if id in t.teams then t.teams[id].createdAt else 0;
    var ids := NewestFirstOf(matched, createdAt);
    assert forall i :: 0 <= i < |ids| ==> ids[i] in matched by {
      forall i | 0 <= i < |ids| ensures ids[i] in matched {
        assert ids[i] in multiset(ids);
      }
    }
    rows := seq(|ids|, i requires 0 <= i < |ids| => Entry(t, ids[i]));
    assert IdsOf(rows) == ids;
    assert forall i :: 0 <= i < |rows| ==> rows[i].createdAt == createdAt(ids[i]);
  }

  /** `GET`. Without a user the answer is a 500; otherwise it lists each team the user may see
      exactly once, newest first. */
  method Get(db: Store, current: Option<User>) returns (code: int, body: Result<seq<TeamRow>>)
    requires db.Valid()
    ensures current.None? <==> code == ServerError500
    ensures code == ServerError500 ==> body == Err(FetchFailed)
    ensures code != ServerError500 ==>
      && code == Ok200 && body.Ok?
      && (forall i :: 0 <= i < |body.value| ==>
            Resolvable(db.data, body.value[i].id) && body.value[i] == Entry(db.data, body.value[i].id))
      && multiset(IdsOf(body.value))
         == multiset(set id | id in db.data.teams
                              && (current.value.role == TeamMember ==> Membership(current.value.id, id) in db.data.members))
      && NewestFirst(body.value, (r: TeamRow) => r.createdAt)
      && (forall i, j :: 0 <= i < j < |body.value| ==> body.value[i].id != body.value[j].id)
  {
    var auth := RequireAuth(current);
    if auth.Err? {
      return ServerError500, Err(FetchFailed);
    }
    var w := BuildWhere(auth.value);
    AllResolvable(db.data);
    var rows := Select(db.data, w);
    DistinctRows(rows, (set id | id in db.data.teams && Admits(db.data, w, id)));
    assert (set id | id in db.data.teams && Admits(db.data, w, id))
        == set id | id in db.data.teams
                    && (current.value.role == TeamMember ==> Membership(current.value.id, id) in db.data.members);
    return Ok200, Ok(rows);
  }

  /** `POST`: a ScrumMaster (or an Admin) creates a team of its own from the body's name and
      description, taken as given. */
  method Post(db: Store, current: Option<User>, name: string, description: string)
    returns (code: int, body: Result<Id>)
    requires db.Valid()
    modifies db
    ensures db.Valid()
    ensures var t := old(db.data);
      if RequireRole(current, ScrumMaster).Err? then code == ServerError500 && body == Err(CreateFailed) && db.data == t
      else code == Created201 && body == Ok(NextId(t)) && db.data == AddTeam(t, name, description, current.value.id)
  {
    var auth := RequireRole(current, ScrumMaster);
    if auth.Err? {
      return ServerError500, Err(CreateFailed);
    }
    var id := db.InsertTeam(name, description, auth.value.id);
    return Created201, Ok(id);
  }
}
