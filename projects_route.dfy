/** app/api/projects/route.ts: the project list (`GET`) and project creation (`POST`). The list
    may be narrowed to one status, shows a TEAM_MEMBER only the projects linked to one of its
    teams, and returns each project newest first with its linked teams and its prompt count. */
module ProjectsRoute {
  import opened Results
  import opened Schema
  import opened Text
  import opened Auth
  import opened Store
  import opened Ordering

  const Ok200 := 200
  const Created201 := 201
  const ServerError500 := 500

  const FetchFailed := "Failed to fetch projects"
  const CreateFailed := "Failed to create project"

  /** The `where` object of the query; `memberId` stands for
      `projectTeams: { some: { team: { members: { some: { userId } } } } }`. */
  datatype ProjectWhere = ProjectWhere(status: Option<string>, memberId: Option<Id>)

  /** Some link of project `id` goes to a team that `userId` belongs to. */
  predicate SharesTeam(t: Tables, id: Id, userId: Id) {
    exists i | 0 <= i < |t.links| :: t.links[i].projectId == id && Membership(userId, t.links[i].teamId) in t.members
  }

  /** How the store applies a where clause to project `id`. */
  predicate Admits(t: Tables, w: ProjectWhere, id: Id)
    requires id in t.projects
  {
    && (w.status.None? || w.status.value == ProjectStatusCode(t.projects[id].status))
    && (w.memberId.None? || SharesTeam(t, id, w.memberId.value))
  }

  /** The store rejects a status condition that names no `ProjectStatus`. */
  predicate Refused(w: ProjectWhere) {
    w.status.Some? && ParseProjectStatus(w.status.value).None?
  }

  /** The projects the list is meant to show `user` (an absent status is ""): those in the named
      status, written in any letter case, and for a TEAM_MEMBER only those linked to a team it
      belongs to. */
  predicate Listed(t: Tables, user: User, status: string, id: Id)
    requires id in t.projects
  {
    && (status != "" ==> ProjectStatusCode(t.projects[id].status) == Upper(status))
    && (user.role == TeamMember ==>
          exists l :: l in LinksOfProject(t, id) && Membership(user.id, l.teamId) in t.members)
  }

  /** The projects the route as written selects: the status compared verbatim with the stored
      code, and for a TEAM_MEMBER only those linked to a team it belongs to. */
  predicate ListedAsWritten(t: Tables, user: User, status: string, id: Id)
    requires id in t.projects
  {
    && (status != "" ==> ProjectStatusCode(t.projects[id].status) == status)
    && (user.role == TeamMember ==>
          exists l :: l in LinksOfProject(t, id) && Membership(user.id, l.teamId) in t.members)
  }

  /** The where clause as the route builds it: the status parameter is used verbatim. */
  method BuildWhereAsWritten(user: User, status: string) returns (w: ProjectWhere)
    ensures w.status == (if status == "" then None else Some(status))
    ensures w.memberId == (if user.role == TeamMember then Some(user.id) else None)
    ensures forall t: Tables, id :: id in t.projects ==> (Admits(t, w, id) <==> ListedAsWritten(t, user, status, id))
    ensures Refused(w) <==> status != "" && ParseProjectStatus(status).None?
  {
    w := ProjectWhere(None, None);
    if status != "" {
      w := w.(status := Some(status));
    }
    if user.role == TeamMember {
      w := w.(memberId := Some(user.id));
    }
    forall t: Tables, id | id in t.projects && user.role == TeamMember
      ensures SharesTeam(t, id, user.id) <==> exists l :: l in LinksOfProject(t, id) && Membership(user.id, l.teamId) in t.members
    {
      SharesTeamViaLinks(t, id, user.id);
    }
  }

  /** `GET` as written. Without a user, or with a status that is not literally a stored code, the
      answer is a 500; in particular every status in the lower-case form the list shows is
      answered with a 500. Otherwise it lists each project `ListedAsWritten` admits, newest first. */
  method GetAsWritten(db: Store, current: Option<User>, status: string) returns (code: int, body: Result<seq<ProjectRow>>)
    requires db.Valid()
    ensures current.None? || (status != "" && ParseProjectStatus(status).None?) <==> code == ServerError500
    ensures forall s :: status == Lower(ProjectStatusCode(s)) ==> code == ServerError500
    ensures code == ServerError500 ==> body == Err(FetchFailed)
    ensures code != ServerError500 ==>
      && code == Ok200 && body.Ok?
      && (forall i :: 0 <= i < |body.value| ==>
            Resolvable(db.data, body.value[i].id) && body.value[i] == Entry(db.data, body.value[i].id))
      && multiset(IdsOf(body.value))
         == multiset(set id | id in db.data.projects && ListedAsWritten(db.data, current.value, status, id))
      && NewestFirst(body.value, (r: ProjectRow) => r.createdAt)
      && (forall i, j :: 0 <= i < j < |body.value| ==> body.value[i].id != body.value[j].id)
  {
    forall s | status == Lower(ProjectStatusCode(s)) ensures ParseProjectStatus(status).None? {
      ShownStatusRefused(s);
    }
    var auth := RequireAuth(current);
    if auth.Err? {
      return ServerError500, Err(FetchFailed);
    }
    var w := BuildWhereAsWritten(auth.value, status);
    if Refused(w) {
      return ServerError500, Err(FetchFailed);
    }
    AllResolvable(db.data);
    var rows := Select(db.data, w);
    DistinctRows(rows, (set id | id in db.data.projects && Admits(db.data, w, id)));
    SameSelectionAsWritten(db.data, w, auth.value, status);
    return Ok200, Ok(rows);
  }

  /** A where clause that agrees with `ListedAsWritten` on every project selects that set. */
  lemma SameSelectionAsWritten(t: Tables, w: ProjectWhere, user: User, status: string)
    requires forall id :: id in t.projects ==> (Admits(t, w, id) <==> ListedAsWritten(t, user, status, id))
    ensures (set id | id in t.projects && Admits(t, w, id)) == set id | id in t.projects && ListedAsWritten(t, user, status, id)
  {
  }

  /** The list shows a status in lower case, and the projects page sends its filter lower-cased;
      used verbatim, none of those spellings names a `ProjectStatus`, so the route refuses every
      status filter in the form it hands out. */
  lemma ShownStatusRefused(s: ProjectStatus)
    ensures ParseProjectStatus(Lower(ProjectStatusCode(s))).None?
  {
    match s
    case Planning => assert Lower("PLANNING") == "planning";
    case Active => assert Lower("ACTIVE") == "active";
    case Completed => assert Lower("COMPLETED") == "completed";
  }

  /** The where clause with the status upper-cased, as the prompt list and project creation do. */
  method BuildWhere(user: User, status: string) returns (w: ProjectWhere)
    ensures forall t: Tables, id :: id in t.projects ==> (Admits(t, w, id) <==> Listed(t, user, status, id))
    ensures Refused(w) <==> status != "" && ParseProjectStatus(Upper(status)).None?
  {
    w := ProjectWhere(None, None);
    if status != "" {
      w := w.(status := Some(Upper(status)));
    }
    if user.role == TeamMember {
      w := w.(memberId := Some(user.id));
    }
    forall t: Tables, id | id in t.projects && user.role == TeamMember
      ensures SharesTeam(t, id, user.id) <==> exists l :: l in LinksOfProject(t, id) && Membership(user.id, l.teamId) in t.members
    {
      SharesTeamViaLinks(t, id, user.id);
    }
  }

  /** The store's `some` over the link table agrees with the links of the project. */
  lemma SharesTeamViaLinks(t: Tables, id: Id, userId: Id)
    ensures SharesTeam(t, id, userId) <==> exists l :: l in LinksOfProject(t, id) && Membership(userId, l.teamId) in t.members
  {
    var links := LinksOfProject(t, id);
    if SharesTeam(t, id, userId) {
      var i :| 0 <= i < |t.links| && t.links[i].projectId == id && Membership(userId, t.links[i].teamId) in t.members;
      assert t.links[i] in links;
    }
    if exists l :: l in links && Membership(userId, l.teamId) in t.members {
      var l :| l in links && Membership(userId, l.teamId) in t.members;
      var i :| 0 <= i < |t.links| && t.links[i] == l;
    }
  }

  /** With the status upper-cased, a status filter in the form the list shows selects exactly the
      projects in that status. */
  lemma ShownStatusAccepted(s: ProjectStatus)
    ensures ParseProjectStatus(Upper(Lower(ProjectStatusCode(s)))) == Some(s)
  {
    match s
    case Planning => assert Upper(Lower("PLANNING")) == "PLANNING";
    case Active => assert Upper(Lower("ACTIVE")) == "ACTIVE";
    case Completed => assert Upper(Lower("COMPLETED")) == "COMPLETED";
  }

  /** One entry of the list. The dates are kept as the stored text; the ISO formatting and the
      creator's profile are not part of this model. */
  datatype ProjectRow = ProjectRow(id: Id, name: string, description: string, status: string,
                                   progress: int, teamCount: nat, teams: seq<string>,
                                   startDate: string, endDate: string, promptCount: nat, createdAt: nat)

  /** Project `id` and the teams of all its links are stored. */
  predicate Resolvable(t: Tables, id: Id) {
    id in t.projects && forall l :: l in LinksOfProject(t, id) ==> l.teamId in t.teams
  }

  /** The names of the teams of `links`, in the links' order. */
  function TeamNames(t: Tables, links: seq<ProjectTeam>): (names: seq<string>)
    requires forall l :: l in links ==> l.teamId in t.teams
    ensures |names| == |links| && forall i :: 0 <= i < |links| ==> names[i] == t.teams[links[i].teamId].name
  {
    seq(|links|, i requires 0 <= i < |links| => t.teams[links[i].teamId].name)
  }

  /** The entry for project `id`: its own fields, its status in lower case, one team name per
      link in the links' order, and the number of its prompts. */
  function Entry(t: Tables, id: Id): (r: ProjectRow)
    requires Resolvable(t, id)
    ensures var p := t.projects[id];
            && r.id == id && r.name == p.name && r.description == p.description && r.progress == p.progress
            && r.startDate == p.startDate && r.endDate == p.endDate && r.createdAt == p.createdAt
            && r.status == Lower(ProjectStatusCode(p.status))
            && r.teamCount == |r.teams| == |LinksOfProject(t, id)|
            && (forall i :: 0 <= i < r.teamCount ==> r.teams[i] == t.teams[LinksOfProject(t, id)[i].teamId].name)
            && r.promptCount == PromptCountOfProject(t, id)
  {
    var p := t.projects[id];
    var links := LinksOfProject(t, id);
    ProjectRow(id, p.name, p.description, Lower(ProjectStatusCode(p.status)), p.progress, |links|,
               TeamNames(t, links), p.startDate, p.endDate, PromptCountOfProject(t, id), p.createdAt)
  }

  function IdsOf(rows: seq<ProjectRow>): (ids: seq<Id>)
    ensures |ids| == |rows| && forall i :: 0 <= i < |rows| ==> ids[i] == rows[i].id
  {
    seq(|rows|, i requires 0 <= i < |rows| => rows[i].id)
  }

  /** Every stored project of a consistent store can be listed. */
  lemma AllResolvable(t: Tables)
    requires Consistent(t)
    ensures forall id :: id in t.projects ==> Resolvable(t, id)
  {
  }

  /** A list whose ids have the multiset of a set lists no project twice. */
  lemma DistinctRows(rows: seq<ProjectRow>, ids: set<Id>)
    requires multiset(IdsOf(rows)) == multiset(ids)
    ensures forall i, j :: 0 <= i < j < |rows| ==> rows[i].id != rows[j].id
  {
    EachOnce(IdsOf(rows), ids);
  }

  /** `findMany({ where: w, orderBy: { createdAt: "desc" } })` followed by the formatting of each
      project found. */
  method Select(t: Tables, w: ProjectWhere) returns (rows: seq<ProjectRow>)
    requires forall id :: id in t.projects ==> Resolvable(t, id)
    ensures forall i :: 0 <= i < |rows| ==> Resolvable(t, rows[i].id) && rows[i] == Entry(t, rows[i].id)
    ensures multiset(IdsOf(rows)) == multiset(set id | id in t.projects && Admits(t, w, id))
    ensures NewestFirst(rows, (r: ProjectRow) => r.createdAt)
  {
    var matched := set id | id in t.projects && Admits(t, w, id);
    var createdAt := (id: Id) => if id in t.projects then t.projects[id].createdAt else 0;
    var ids := NewestFirstOf(matched, createdAt);
    assert forall i :: 0 <= i < |ids| ==> ids[i] in matched by {
      forall i | 0 <= i < |ids| ensures ids[i] in matched {
        assert ids[i] in multiset(ids);
      }
    }
    rows := seq(|ids|, i requires 0 <= i < |ids| => Entry(t, ids[i]));
    assert IdsOf(rows) == ids;
    assert forall i :: 0 <= i < |rows| ==> rows[i].createdAt == createdAt(ids[i]);
  }

  /** `GET`, with the status filter upper-cased. Without a user, or with a status that names no
      project status, the answer is a 500; otherwise it lists each project `Listed` admits exactly
      once, newest first. */
  method Get(db: Store, current: Option<User>, status: string) returns (code: int, body: Result<seq<ProjectRow>>)
    requires db.Valid()
    ensures current.None? || (status != "" && ParseProjectStatus(Upper(status)).None?) <==> code == ServerError500
    ensures code == ServerError500 ==> body == Err(FetchFailed)
    ensures code != ServerError500 ==>
      && code == Ok200 && body.Ok?
      && (forall i :: 0 <= i < |body.value| ==>
            Resolvable(db.data, body.value[i].id) && body.value[i] == Entry(db.data, body.value[i].id))
      && multiset(IdsOf(body.value))
         == multiset(set id | id in db.data.projects && Listed(db.data, current.value, status, id))
      && NewestFirst(body.value, (r: ProjectRow) => r.createdAt)
      && (forall i, j :: 0 <= i < j < |body.value| ==> body.value[i].id != body.value[j].id)
  {
    var auth := RequireAuth(current);
    if auth.Err? {
      return ServerError500, Err(FetchFailed);
    }
    var w := BuildWhere(auth.value, status);
    if Refused(w) {
      return ServerError500, Err(FetchFailed);
    }
    AllResolvable(db.data);
    var rows := Select(db.data, w);
    DistinctRows(rows, (set id | id in db.data.projects && Admits(db.data, w, id)));
    SameSelection(db.data, w, auth.value, status);
    return Ok200, Ok(rows);
  }

  /** A where clause that agrees with `Listed` on every project selects the listed set. */
  lemma SameSelection(t: Tables, w: ProjectWhere, user: User, status: string)
    requires forall id :: id in t.projects ==> (Admits(t, w, id) <==> Listed(t, user, status, id))
    ensures (set id | id in t.projects && Admits(t, w, id)) == set id | id in t.projects && Listed(t, user, status, id)
  {
  }

  /** `POST`: a ScrumMaster (or an Admin) creates a project of its own at progress 0 from the
      body's fields, taken as given; a status that, upper-cased, names no project status makes
      the insert fail. */
  method Post(db: Store, current: Option<User>, name: string, description: string, status: string,
              startDate: string, endDate: string) returns (code: int, body: Result<Id>)
    requires db.Valid()
    modifies db
    ensures db.Valid()
    ensures var t := old(db.data);
      if RequireRole(current, ScrumMaster).Err? || ParseProjectStatus(Upper(status)).None? then
        code == ServerError500 && body == Err(CreateFailed) && db.data == t
      else code == Created201 && body == Ok(NextId(t))
           && db.data == AddProject(t, name, description, ParseProjectStatus(Upper(status)).value,
                                    startDate, endDate, current.value.id)
  {
    var auth := RequireRole(current, ScrumMaster);
    if auth.Err? {
      return ServerError500, Err(CreateFailed);
    }
    var parsed := ParseProjectStatus(Upper(status));
    if parsed.None? {
      // The store refuses a value outside the enum.
      return ServerError500, Err(CreateFailed);
    }
    var id := db.InsertProject(name, description, parsed.value, startDate, endDate, auth.value.id);
    return Created201, Ok(id);
  }
}
