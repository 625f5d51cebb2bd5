/** app/api/prompts/route.ts: the prompt list (`GET`) and prompt creation (`POST`). The list
    narrows the prompts by the query parameters present, shows a TEAM_MEMBER only the prompts of
    its own teams, and returns them newest first with their response count, their team's size and
    a display form of their status. */
module PromptsRoute {
  import opened Results
  import opened Schema
  import opened Text
  import opened Auth
  import opened Store
  import opened Ordering

  const Ok200 := 200
  const Created201 := 201
  const ServerError500 := 500

  const FetchFailed := "Failed to fetch prompts"
  const CreateFailed := "Failed to create prompt"

  /** The `where` object of the query. An absent field sets no condition; `memberId` stands for
      `team: { members: { some: { userId } } }`. */
  datatype PromptWhere = PromptWhere(projectId: Option<Id>, teamId: Option<Id>, ceremonyId: Option<Id>,
                                     status: Option<string>, memberId: Option<Id>)

  /** An equality condition on a field, which an absent condition does not impose. */
  predicate Matches(condition: Option<string>, value: string) {
    condition.None? || condition.value == value
  }

  /** How the store applies a where clause to a prompt row. */
  predicate Admits(t: Tables, w: PromptWhere, p: Prompt) {
    && Matches(w.projectId, p.projectId) && Matches(w.teamId, p.teamId) && Matches(w.ceremonyId, p.ceremonyId)
    && Matches(w.status, StatusCode(p.status))
    && (w.memberId.None? || Membership(w.memberId.value, p.teamId) in t.members)
  }

  /** The store rejects a status condition that names no `PromptStatus`. */
  predicate Refused(w: PromptWhere) {
    w.status.Some? && ParseStatus(w.status.value).None?
  }

  /** The prompts the list is meant to show `user` for the query parameters given (an absent
      parameter is ""): those of the named project, team and ceremony, in the named status written
      in any letter case, and for a TEAM_MEMBER only those of a team it belongs to. */
  predicate Listed(t: Tables, user: User, projectId: string, teamId: string, ceremonyId: string,
                   status: string, p: Prompt) {
    && (projectId != "" ==> p.projectId == projectId)
    && (teamId != "" ==> p.teamId == teamId)
    && (ceremonyId != "" ==> p.ceremonyId == ceremonyId)
    && (status != "" ==> StatusCode(p.status) == Upper(status))
    && (user.role == TeamMember ==> Membership(user.id, p.teamId) in t.members)
  }

  /** The where clause built from the query parameters, one condition per parameter present. */
  method BuildWhere(user: User, projectId: string, teamId: string, ceremonyId: string, status: string)
    returns (w: PromptWhere)
    ensures forall t, p :: Admits(t, w, p) <==> Listed(t, user, projectId, teamId, ceremonyId, status, p)
    ensures Refused(w) <==> status != "" && ParseStatus(Upper(status)).None?
  {
    w := PromptWhere(None, None, None, None, None);
    if projectId != "" {
      w := w.(projectId := Some(projectId));
    }
    if teamId != "" {
      w := w.(teamId := Some(teamId));
    }
    if ceremonyId != "" {
      w := w.(ceremonyId := Some(ceremonyId));
    }
    if status != "" {
      w := w.(status := Some(Upper(status)));
    }
    if user.role == TeamMember {
      w := w.(memberId := Some(user.id));
    }
  }

  /** The status as the list shows it: the enum value in lower case, with IN_PROGRESS and
      NEAR_DEADLINE spelled with a hyphen. */
  function DisplayStatus(code: string): (r: string)
    ensures |r| == |code|
    ensures forall i :: 0 <= i < |r| ==> !('A' <= r[i] <= 'Z')
    ensures r != Lower(code) ==> Lower(code) == "in_progress" || Lower(code) == "near_deadline"
  {
    var status := Lower(code);
    if status == "in_progress" then "in-progress"
    else if status == "near_deadline" then "near-deadline"
    else status
  }

  /** The `let status` of the formatting, reassigned for the two hyphenated spellings. */
  method ShowStatus(code: string) returns (status: string)
    ensures status == DisplayStatus(code)
  {
    status := Lower(code);
    if status == "in_progress" {
      status := "in-progress";
    }
    if status == "near_deadline" {
      status := "near-deadline";
    }
  }

  /** The three stored statuses are shown as "pending", "in-progress" and "complete", so the
      display form tells them apart. */
  lemma DisplayedStatuses()
    ensures DisplayStatus(StatusCode(Pending)) == "pending"
    ensures DisplayStatus(StatusCode(InProgress)) == "in-progress"
    ensures DisplayStatus(StatusCode(Complete)) == "complete"
    ensures forall a: Status, b: Status :: DisplayStatus(StatusCode(a)) == DisplayStatus(StatusCode(b)) ==> a == b
  {
    assert Lower("PENDING") == "pending";
    assert Lower("IN_PROGRESS") == "in_progress";
    assert Lower("COMPLETE") == "complete";
  }

  /** One entry of the list. The deadline and the creation time are kept as values; their
      `toLocaleString` formatting is not part of this model. */
  datatype PromptRow = PromptRow(id: Id, title: string, deadline: Deadline, responses: nat,
                                 totalTeamMembers: nat, status: string, project: string,
                                 ceremonyType: string, team: string, createdAt: nat)

  /** The prompt's project, team and ceremony are stored. */
  predicate Resolvable(t: Tables, id: Id) {
    id in t.prompts && t.prompts[id].projectId in t.projects && t.prompts[id].teamId in t.teams
    && t.prompts[id].ceremonyId in t.ceremonies
  }

  /** The entry for prompt `id`: its own fields, the names of its project, ceremony and team, the
      number of its responses and the number of members of its team. */
  function Entry(t: Tables, id: Id): (r: PromptRow)
    requires Resolvable(t, id)
    ensures var p := t.prompts[id];
            && r.id == id && r.title == p.title && r.deadline == p.deadline && r.createdAt == p.createdAt
            && r.responses == ResponseCount(t, id) && r.totalTeamMembers == MemberCount(t, p.teamId)
            && r.status == DisplayStatus(StatusCode(p.status))
            && r.project == t.projects[p.projectId].name && r.team == t.teams[p.teamId].name
            && r.ceremonyType == t.ceremonies[p.ceremonyId].name
  {
    var p := t.prompts[id];
    PromptRow(id, p.title, p.deadline, ResponseCount(t, id), MemberCount(t, p.teamId),
              DisplayStatus(StatusCode(p.status)), t.projects[p.projectId].name,
              t.ceremonies[p.ceremonyId].name, t.teams[p.teamId].name, p.createdAt)
  }

  function IdsOf(rows: seq<PromptRow>): (ids: seq<Id>)
    ensures |ids| == |rows| && forall i :: 0 <= i < |rows| ==> ids[i] == rows[i].id
  {
    seq(|rows|, i requires 0 <= i < |rows| => rows[i].id)
  }

  /** `GET`. Without a user, or with a status that names no prompt status, the answer is a 500;
      otherwise it lists each prompt `Listed` admits exactly once, newest first. */
  method Get(db: Store, current: Option<User>, projectId: string, teamId: string, ceremonyId: string,
             status: string) returns (code: int, body: Result<seq<PromptRow>>)
    requires db.Valid()
    ensures current.None? || (status != "" && ParseStatus(Upper(status)).None?) <==> code == ServerError500
    ensures code == ServerError500 ==> body == Err(FetchFailed)
    ensures code != ServerError500 ==>
      && code == Ok200 && body.Ok?
      && (forall i :: 0 <= i < |body.value| ==>
            Resolvable(db.data, body.value[i].id) && body.value[i] == Entry(db.data, body.value[i].id))
      && multiset(IdsOf(body.value))
         == multiset(set id | id in db.data.prompts
                              && Listed(db.data, current.value, projectId, teamId, ceremonyId, status, db.data.prompts[id]))
      && NewestFirst(body.value, (r: PromptRow) => r.createdAt)
      && (forall i, j :: 0 <= i < j < |body.value| ==> body.value[i].id != body.value[j].id)
  {
    var auth := RequireAuth(current);
    if auth.Err? {
      return ServerError500, Err(FetchFailed);
    }
    var w := BuildWhere(auth.value, projectId, teamId, ceremonyId, status);
    if Refused(w) {
      return ServerError500, Err(FetchFailed);
    }
    AllResolvable(db.data);
    var rows := Select(db.data, w);
    DistinctRows(rows, (set id | id in db.data.prompts && Admits(db.data, w, db.data.prompts[id])));
    SameSelection(db.data, w, auth.value, projectId, teamId, ceremonyId, status);
    return Ok200, Ok(rows);
  }

  /** A where clause that agrees with `Listed` on every prompt selects the listed set. */
  lemma SameSelection(t: Tables, w: PromptWhere, user: User, projectId: string, teamId: string,
                      ceremonyId: string, status: string)
    requires forall p :: Admits(t, w, p) <==> Listed(t, user, projectId, teamId, ceremonyId, status, p)
    ensures (set id | id in t.prompts && Admits(t, w, t.prompts[id]))
            == set id | id in t.prompts && Listed(t, user, projectId, teamId, ceremonyId, status, t.prompts[id])
  {
  }

  /** Every stored prompt of a consistent store can be listed. */
  lemma AllResolvable(t: Tables)
    requires Consistent(t)
    ensures forall id :: id in t.prompts ==> Resolvable(t, id)
  {
  }

  /** A list whose ids have the multiset of a set lists no prompt twice. */
  lemma DistinctRows(rows: seq<PromptRow>, ids: set<Id>)
    requires multiset(IdsOf(rows)) == multiset(ids)
    ensures forall i, j :: 0 <= i < j < |rows| ==> rows[i].id != rows[j].id
  {
    EachOnce(IdsOf(rows), ids);
  }

  /** `findMany({ where: w, orderBy: { createdAt: "desc" } })` followed by the formatting of each
      prompt found. */
  method Select(t: Tables, w: PromptWhere) returns (rows: seq<PromptRow>)
    requires forall id :: id in t.prompts ==> Resolvable(t, id)
    ensures forall i :: 0 <= i < |rows| ==> Resolvable(t, rows[i].id) && rows[i] == Entry(t, rows[i].id)
    ensures multiset(IdsOf(rows)) == multiset(set id | id in t.prompts && Admits(t, w, t.prompts[id]))
    ensures NewestFirst(rows, (r: PromptRow) => r.createdAt)
  {
    var matched := set id | id in t.prompts && Admits(t, w, t.prompts[id]);
    var createdAt := (id: Id) => if id in t.prompts then t.prompts[id].createdAt else 0;
    var ids := NewestFirstOf(matched, createdAt);
    assert forall i :: 0 <= i < |ids| ==> ids[i] in matched by {
      forall i | 0 <= i < |ids| ensures ids[i] in matched {
        assert ids[i] in multiset(ids);
      }
    }
    rows := seq(|ids|, i requires 0 <= i < |ids| => Entry(t, ids[i]));
    assert IdsOf(rows) == ids;
    assert forall i :: 0 <= i < |rows| ==> rows[i].createdAt == createdAt(ids[i]);
  }

  /** `POST`: a ScrumMaster (or an Admin) creates a PENDING prompt of its own from the body's
      fields, taken as given; a project, team or ceremony that is not stored makes the insert fail. */
  method Post(db: Store, current: Option<User>, title: string, description: string, projectId: Id,
              teamId: Id, ceremonyId: Id, date: string, time: string, videoUrl: Option<string>)
    returns (code: int, body: Result<Id>)
    requires db.Valid()
    modifies db
    ensures db.Valid()
    ensures var t := old(db.data);
      if RequireRole(current, ScrumMaster).Err? then code == ServerError500 && body == Err(CreateFailed) && db.data == t
      else if projectId !in t.projects || teamId !in t.teams || ceremonyId !in t.ceremonies then
        code == ServerError500 && body == Err(CreateFailed) && db.data == t
      else code == Created201 && body == Ok(NextId(t))
           && db.data == AddPrompt(t, Prompt(title, description, projectId, teamId, ceremonyId,
                                             Deadline(date, time), Pending, videoUrl, current.value.id, 0))
  {
    var auth := RequireRole(current, ScrumMaster);
    if auth.Err? {
      return ServerError500, Err(CreateFailed);
    }
    if projectId !in db.data.projects || teamId !in db.data.teams || ceremonyId !in db.data.ceremonies {
      // The insert violates one of the prompt's foreign keys.
      return ServerError500, Err(CreateFailed);
    }
    var id := db.InsertPrompt(Prompt(title, description, projectId, teamId, ceremonyId,
                                     Deadline(date, time), Pending, videoUrl, auth.value.id, 0));
    return Created201, Ok(id);
  }
}
