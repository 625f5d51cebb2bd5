/** The relational store the server actions and routes read and write. Its state is one value
    holding a map per table (plus the unique indexes the schema declares); its methods are the
    single-row operations the application asks of the database, and each keeps the store's
    integrity invariant: keys as the store issues them, unique e-mails, one response per
    (prompt, user), duplicate-free project–team links, and no row that refers to a missing row
    (creators' ids excepted). */
module Store {
  import opened Results
  import opened Schema
  import opened Seqs

  /** The `n`-th identifier the store hands out: ids issued at different times differ in length. */
  function IdAt(n: nat): (id: Id)
    ensures |id| == n
  {
    seq(n, _ => '#')
  }

  /** The (prompt, user) pair a response is unique on. */
  function PairOf(r: Response): (Id, Id) {
    (r.promptId, r.userId)
  }

  /** The tables. `counter` is the number of identifiers issued so far; it doubles as the clock
      for timestamps. `members` maps a (user, team) pair to the member's role label; `links` are
      the `ProjectTeam` rows in the order they were created. */
  datatype Tables = Tables(
    counter: nat,
    users: map<Id, User>,
    userByEmail: map<string, Id>,
    teams: map<Id, Team>,
    members: map<Membership, string>,
    projects: map<Id, Project>,
    links: seq<ProjectTeam>,
    ceremonies: map<Id, Ceremony>,
    prompts: map<Id, Prompt>,
    responses: map<Id, Response>,
    responseByPair: map<(Id, Id), Id>,
    feedback: map<Id, Feedback>)

  const EmptyTables := Tables(0, map[], map[], map[], map[], map[], [], map[], map[], map[], map[], map[])

  /** A user is stored under its own id, and the unique index on e-mail maps each user's e-mail
      to that user and nothing else. */
  ghost predicate UsersOk(users: map<Id, User>, byEmail: map<string, Id>) {
    && (forall u :: u in users ==> users[u].id == u && users[u].email in byEmail && byEmail[users[u].email] == u)
    && (forall e :: e in byEmail ==> byEmail[e] in users && users[byEmail[e]].email == e)
  }

  /** Every membership joins a stored user to a stored team. */
  ghost predicate MembersOk(members: map<Membership, string>, users: map<Id, User>, teams: map<Id, Team>) {
    forall m :: m in members ==> m.userId in users && m.teamId in teams
  }

  /** Every link joins a stored project to a stored team, and no link is listed twice. */
  ghost predicate LinksOk(links: seq<ProjectTeam>, projects: map<Id, Project>, teams: map<Id, Team>) {
    && (forall i :: 0 <= i < |links| ==> links[i].projectId in projects && links[i].teamId in teams)
    && NoDup(links)
  }

  /** Every prompt refers to a stored project, team and ceremony. */
  ghost predicate PromptsOk(prompts: map<Id, Prompt>, projects: map<Id, Project>, teams: map<Id, Team>,
                            ceremonies: map<Id, Ceremony>) {
    forall p :: p in prompts ==>
      prompts[p].projectId in projects && prompts[p].teamId in teams && prompts[p].ceremonyId in ceremonies
  }

  /** Every response belongs to a stored prompt, and the unique index on (prompt, user) maps
      each response's pair to that response and nothing else. */
  ghost predicate ResponsesOk(responses: map<Id, Response>, byPair: map<(Id, Id), Id>, prompts: map<Id, Prompt>) {
    && (forall r :: r in responses ==>
          responses[r].promptId in prompts && PairOf(responses[r]) in byPair && byPair[PairOf(responses[r])] == r)
    && (forall k :: k in byPair ==> byPair[k] in responses && PairOf(responses[byPair[k]]) == k)
  }

  /** Every feedback row refers to a stored response. */
  ghost predicate FeedbackOk(feedback: map<Id, Feedback>, responses: map<Id, Response>) {
    forall f :: f in feedback ==> feedback[f].responseId in responses
  }

  /** Every primary key was issued by the store: its length is between 1 and the counter. */
  ghost predicate IssuedAll(t: Tables) {
    forall k :: (|| k in t.users || k in t.teams || k in t.projects || k in t.ceremonies
                 || k in t.prompts || k in t.responses || k in t.feedback) ==> 0 < |k| <= t.counter
  }

  /** The store's integrity invariant. */
  ghost predicate Consistent(t: Tables) {
    && IssuedAll(t)
    && UsersOk(t.users, t.userByEmail) && MembersOk(t.members, t.users, t.teams)
    && LinksOk(t.links, t.projects, t.teams) && PromptsOk(t.prompts, t.projects, t.teams, t.ceremonies)
    && ResponsesOk(t.responses, t.responseByPair, t.prompts) && FeedbackOk(t.feedback, t.responses)
  }

  // ---- Queries -------------------------------------------------------------------

  /** The number of `TeamMember` rows of team `teamId`. */
  function MemberCount(t: Tables, teamId: Id): nat {
    |set m | m in t.members && m.teamId == teamId|
  }

  /** The number of responses in `m` to prompt `promptId`. */
  function ResponsesTo(m: map<Id, Response>, promptId: Id): nat {
    |set r | r in m && m[r].promptId == promptId|
  }

  /** The number of responses to prompt `promptId`. */
  function ResponseCount(t: Tables, promptId: Id): nat {
    ResponsesTo(t.responses, promptId)
  }

  /** The number of prompts of project `projectId`. */
  function PromptCountOfProject(t: Tables, projectId: Id): nat {
    |set p | p in t.prompts && t.prompts[p].projectId == projectId|
  }

  /** The number of prompts that use ceremony `ceremonyId`. */
  function PromptCountOfCeremony(t: Tables, ceremonyId: Id): nat {
    |set p | p in t.prompts && t.prompts[p].ceremonyId == ceremonyId|
  }

  /** The links of team `teamId`, in creation order (`team.projectTeams`). */
  function LinksOfTeam(t: Tables, teamId: Id): seq<ProjectTeam> {
    Filter(t.links, (l: ProjectTeam) => l.teamId == teamId)
  }

  /** The links of project `projectId`, in creation order (`project.projectTeams`). */
  function LinksOfProject(t: Tables, projectId: Id): seq<ProjectTeam> {
    Filter(t.links, (l: ProjectTeam) => l.projectId == projectId)
  }

  /** No user has e-mail `email`. */
  ghost predicate EmailFree(t: Tables, email: string) {
    forall u :: u in t.users ==> t.users[u].email != email
  }

  /** No response of `userId` to `promptId` exists. */
  ghost predicate NoResponse(t: Tables, promptId: Id, userId: Id) {
    forall r :: r in t.responses ==> PairOf(t.responses[r]) != (promptId, userId)
  }

  // ---- Writes, as functions of the tables ------------------------------------------

  /** The identifier the next insert is given; inserts stamp their row with the new counter. */
  function NextId(t: Tables): Id {
    IdAt(t.counter + 1)
  }

  /** `user.create`: a user with no password yet. */
  function AddUser(t: Tables, name: string, email: string, role: Role): Tables {
    var id := NextId(t);
    t.(counter := t.counter + 1, users := t.users[id := User(id, name, email, None, role)],
       userByEmail := t.userByEmail[email := id])
  }

  /** `user.update` of a user's name and password; the id and e-mail stay. */
  function UpdateUserRow(t: Tables, id: Id, name: string, password: Option<string>): Tables
    requires id in t.users
  {
    t.(users := t.users[id := t.users[id].(name := name, password := password)])
  }

  /** `team.create`. */
  function AddTeam(t: Tables, name: string, description: string, createdById: Id): Tables {
    t.(counter := t.counter + 1, teams := t.teams[NextId(t) := Team(name, description, createdById, t.counter + 1)])
  }

  /** `teamMember.create`. */
  function AddMember(t: Tables, m: Membership, role: string): Tables {
    t.(members := t.members[m := role])
  }

  /** `project.create`, with progress 0. */
  function AddProject(t: Tables, name: string, description: string, status: ProjectStatus,
                      startDate: string, endDate: string, createdById: Id): Tables {
    t.(counter := t.counter + 1,
       projects := t.projects[NextId(t) := Project(name, description, status, startDate, endDate, 0,
                                                   createdById, t.counter + 1)])
  }

  /** The project–team links replaced by `links` (a committed transaction). */
  function WithLinks(t: Tables, links: seq<ProjectTeam>): Tables {
    t.(links := links)
  }

  /** `ceremony.create`. */
  function AddCeremony(t: Tables, row: Ceremony): Tables {
    t.(counter := t.counter + 1, ceremonies := t.ceremonies[NextId(t) := row])
  }

  /** `ceremony.update`. */
  function UpdateCeremonyRow(t: Tables, id: Id, row: Ceremony): Tables {
    t.(ceremonies := t.ceremonies[id := row])
  }

  /** `ceremony.delete`. */
  function RemoveCeremony(t: Tables, id: Id): Tables {
    t.(ceremonies := t.ceremonies - {id})
  }

  /** `prompt.create`, stamped with the clock. */
  function AddPrompt(t: Tables, row: Prompt): Tables {
    t.(counter := t.counter + 1, prompts := t.prompts[NextId(t) := row.(createdAt := t.counter + 1)])
  }

  /** `prompt.update({ data: { status } })`. */
  function WithStatus(t: Tables, id: Id, status: Status): Tables
    requires id in t.prompts
  {
    t.(prompts := t.prompts[id := t.prompts[id].(status := status)])
  }

  /** `response.create`, stamped with the clock. */
  function AddResponse(t: Tables, promptId: Id, userId: Id, text: string, video: Option<string>): Tables {
    t.(counter := t.counter + 1,
       responses := t.responses[NextId(t) := Response(promptId, userId, text, video, t.counter + 1)],
       responseByPair := t.responseByPair[(promptId, userId) := NextId(t)])
  }

  /** `response.update` of the text, the video and the submission time. */
  function ReviseResponse(t: Tables, id: Id, text: string, video: Option<string>): Tables
    requires id in t.responses
  {
    t.(counter := t.counter + 1,
       responses := t.responses[id := t.responses[id].(textResponse := text, videoResponse := video,
                                                        submittedAt := t.counter + 1)])
  }

  /** `feedback.create`. */
  function AddFeedback(t: Tables, responseId: Id, userId: Id, text: string): Tables {
    t.(counter := t.counter + 1, feedback := t.feedback[NextId(t) := Feedback(responseId, userId, text)])
  }

  // ---- What the writes keep --------------------------------------------------------

  /** The next identifier is in no table. */
  lemma NextIdFresh(t: Tables)
    requires Consistent(t)
    ensures var id := NextId(t);
            id !in t.users && id !in t.teams && id !in t.projects && id !in t.ceremonies
            && id !in t.prompts && id !in t.responses && id !in t.feedback
  {
  }

  /** Issuing one more identifier keeps every key issued. */
  lemma IssuedLater(t: Tables)
    requires Consistent(t)
    ensures IssuedAll(t.(counter := t.counter + 1))
  {
  }

  /** A write that issues one identifier and adds at most that key to each table keeps every
      key issued. */
  lemma IssuedAfterInsert(t: Tables, t': Tables)
    requires IssuedAll(t) && t'.counter == t.counter + 1
    requires t'.users.Keys <= t.users.Keys + {NextId(t)} && t'.teams.Keys <= t.teams.Keys + {NextId(t)}
    requires t'.projects.Keys <= t.projects.Keys + {NextId(t)} && t'.ceremonies.Keys <= t.ceremonies.Keys + {NextId(t)}
    requires t'.prompts.Keys <= t.prompts.Keys + {NextId(t)} && t'.responses.Keys <= t.responses.Keys + {NextId(t)}
    requires t'.feedback.Keys <= t.feedback.Keys + {NextId(t)}
    ensures IssuedAll(t')
  {
  }

  lemma AddUserConsistent(t: Tables, name: string, email: string, role: Role)
    requires Consistent(t) && EmailFree(t, email)
    ensures Consistent(AddUser(t, name, email, role))
  {
    NextIdFresh(t);
    IssuedLater(t);
    var id := NextId(t);
    var t' := AddUser(t, name, email, role);
    assert t'.teams == t.teams && t'.members == t.members && t'.projects == t.projects && t'.links == t.links;
    assert t'.ceremonies == t.ceremonies && t'.prompts == t.prompts && t'.responses == t.responses;
    assert t'.feedback == t.feedback && t'.responseByPair == t.responseByPair;
    UsersOkAfterInsert(t.users, t.userByEmail, id, User(id, name, email, None, role));
  }

  lemma UsersOkAfterInsert(users: map<Id, User>, byEmail: map<string, Id>, id: Id, row: User)
    requires UsersOk(users, byEmail) && id !in users && row.id == id
    requires forall u :: u in users ==> users[u].email != row.email
    ensures UsersOk(users[id := row], byEmail[row.email := id])
  {
  }

  lemma UpdateUserRowConsistent(t: Tables, id: Id, name: string, password: Option<string>)
    requires Consistent(t) && id in t.users
    ensures Consistent(UpdateUserRow(t, id, name, password))
  {
  }

  lemma AddTeamConsistent(t: Tables, name: string, description: string, createdById: Id)
    requires Consistent(t)
    ensures Consistent(AddTeam(t, name, description, createdById))
  {
    NextIdFresh(t);
    IssuedLater(t);
  }

  lemma AddMemberConsistent(t: Tables, m: Membership, role: string)
    requires Consistent(t) && m.userId in t.users && m.teamId in t.teams
    ensures Consistent(AddMember(t, m, role))
  {
  }

  lemma AddProjectConsistent(t: Tables, name: string, description: string, status: ProjectStatus,
                             startDate: string, endDate: string, createdById: Id)
    requires Consistent(t)
    ensures Consistent(AddProject(t, name, description, status, startDate, endDate, createdById))
  {
    NextIdFresh(t);
    IssuedLater(t);
  }

  lemma WithLinksConsistent(t: Tables, links: seq<ProjectTeam>)
    requires Consistent(t) && NoDup(links)
    requires forall i :: 0 <= i < |links| ==> links[i].projectId in t.projects && links[i].teamId in t.teams
    ensures Consistent(WithLinks(t, links))
  {
  }

  lemma AddCeremonyConsistent(t: Tables, row: Ceremony)
    requires Consistent(t)
    ensures Consistent(AddCeremony(t, row))
  {
    NextIdFresh(t);
    IssuedLater(t);
  }

  lemma UpdateCeremonyRowConsistent(t: Tables, id: Id, row: Ceremony)
    requires Consistent(t) && id in t.ceremonies
    ensures Consistent(UpdateCeremonyRow(t, id, row))
  {
  }

  lemma RemoveCeremonyConsistent(t: Tables, id: Id)
    requires Consistent(t) && forall p :: p in t.prompts ==> t.prompts[p].ceremonyId != id
    ensures Consistent(RemoveCeremony(t, id))
  {
  }

  lemma AddPromptConsistent(t: Tables, row: Prompt)
    requires Consistent(t)
    requires row.projectId in t.projects && row.teamId in t.teams && row.ceremonyId in t.ceremonies
    ensures Consistent(AddPrompt(t, row))
  {
    NextIdFresh(t);
    IssuedLater(t);
  }

  lemma WithStatusConsistent(t: Tables, id: Id, status: Status)
    requires Consistent(t) && id in t.prompts
    ensures Consistent(WithStatus(t, id, status))
  {
  }

  lemma AddResponseConsistent(t: Tables, promptId: Id, userId: Id, text: string, video: Option<string>)
    requires Consistent(t) && promptId in t.prompts && NoResponse(t, promptId, userId)
    ensures Consistent(AddResponse(t, promptId, userId, text, video))
  {
    NextIdFresh(t);
    var row := Response(promptId, userId, text, video, t.counter + 1);
    var t' := AddResponse(t, promptId, userId, text, video);
    IssuedAfterInsert(t, t');
    assert t'.users == t.users && t'.userByEmail == t.userByEmail && t'.teams == t.teams && t'.members == t.members;
    assert t'.projects == t.projects && t'.links == t.links && t'.ceremonies == t.ceremonies && t'.prompts == t.prompts;
    assert t'.responses == t.responses[NextId(t) := row] && t'.feedback == t.feedback;
    ResponsesOkAfterInsert(t.responses, t.responseByPair, t.prompts, NextId(t), row);
    FeedbackOkGrows(t.feedback, t.responses, t'.responses);
  }

  lemma ResponsesOkAfterInsert(responses: map<Id, Response>, byPair: map<(Id, Id), Id>,
                               prompts: map<Id, Prompt>, id: Id, row: Response)
    requires ResponsesOk(responses, byPair, prompts) && id !in responses && row.promptId in prompts
    requires forall r :: r in responses ==> PairOf(responses[r]) != PairOf(row)
    ensures ResponsesOk(responses[id := row], byPair[PairOf(row) := id], prompts)
  {
  }

  lemma FeedbackOkGrows(feedback: map<Id, Feedback>, responses: map<Id, Response>, responses': map<Id, Response>)
    requires FeedbackOk(feedback, responses) && responses.Keys <= responses'.Keys
    ensures FeedbackOk(feedback, responses')
  {
  }

  lemma ReviseResponseConsistent(t: Tables, id: Id, text: string, video: Option<string>)
    requires Consistent(t) && id in t.responses
    ensures Consistent(ReviseResponse(t, id, text, video))
  {
    IssuedLater(t);
  }

  lemma AddFeedbackConsistent(t: Tables, responseId: Id, userId: Id, text: string)
    requires Consistent(t) && responseId in t.responses
    ensures Consistent(AddFeedback(t, responseId, userId, text))
  {
    NextIdFresh(t);
    IssuedLater(t);
  }

  /** Adding a response adds one to its prompt's response count and leaves other prompts' counts. */
  lemma AddResponseCount(t: Tables, promptId: Id, userId: Id, text: string, video: Option<string>, p: Id)
    requires NextId(t) !in t.responses
    ensures ResponseCount(AddResponse(t, promptId, userId, text, video), p)
            == ResponseCount(t, p) + (if p == promptId then 1 else 0)
  {
    InsertCount(t.responses, NextId(t), Response(promptId, userId, text, video, t.counter + 1), p);
  }

  lemma InsertCount(m: map<Id, Response>, id: Id, row: Response, p: Id)
    requires id !in m
    ensures ResponsesTo(m[id := row], p) == ResponsesTo(m, p) + (if row.promptId == p then 1 else 0)
  {
    var m' := m[id := row];
    var before := set r | r in m && m[r].promptId == p;
    var after := set r | r in m' && m'[r].promptId == p;
    if row.promptId == p {
      assert after == before + {id};
    } else {
      assert after == before;
    }
  }

  /** Rewriting a response keeps every prompt's response count. */
  lemma ReviseResponseCount(t: Tables, id: Id, text: string, video: Option<string>, p: Id)
    requires id in t.responses
    ensures ResponseCount(ReviseResponse(t, id, text, video), p) == ResponseCount(t, p)
  {
    var m := t.responses;
    var m' := ReviseResponse(t, id, text, video).responses;
    assert m'.Keys == m.Keys;
    var before := set r | r in m && m[r].promptId == p;
    var after := set r | r in m' && m'[r].promptId == p;
    assert after == before;
  }

  /** A consistent store holds at most one response per (prompt, user) pair. */
  lemma OneResponsePerPair(t: Tables, r1: Id, r2: Id)
    requires Consistent(t) && r1 in t.responses && r2 in t.responses
    requires PairOf(t.responses[r1]) == PairOf(t.responses[r2])
    ensures r1 == r2
  {
  }

  class Store {
    var data: Tables

    ghost predicate Valid()
      reads this
    {
      Consistent(data)
    }

    /** An empty store. */
    constructor ()
      ensures Valid() && data == EmptyTables
    {
      data := EmptyTables;
    }

    /** `user.findUnique({ where: { email } })`: exact, case-sensitive match. */
    method FindUserByEmail(email: string) returns (r: Option<Id>)
      requires Valid()
      ensures r.None? <==> EmailFree(data, email)
      ensures r.Some? ==> r.value in data.users && data.users[r.value].email == email
      ensures r.Some? <==> email in data.userByEmail
      ensures r.Some? ==> r.value == data.userByEmail[email]
    {
      if email in data.userByEmail {
        r := Some(data.userByEmail[email]);
      } else {
        r := None;
      }
    }

    /** `response.findUnique({ where: { promptId_userId } })`: the one response, if any. */
    method FindResponse(promptId: Id, userId: Id) returns (r: Option<Id>)
      requires Valid()
      ensures r.None? <==> NoResponse(data, promptId, userId)
      ensures r.Some? ==> r.value in data.responses && PairOf(data.responses[r.value]) == (promptId, userId)
    {
      if (promptId, userId) in data.responseByPair {
        r := Some(data.responseByPair[(promptId, userId)]);
      } else {
        r := None;
      }
    }

    /** `ceremony.findFirst({ where: { name } })`: some ceremony with that name, if any. */
    method FindCeremonyByName(name: string) returns (r: Option<Id>)
      ensures r.None? <==> forall c :: c in data.ceremonies ==> data.ceremonies[c].name != name
      ensures r.Some? ==> r.value in data.ceremonies && data.ceremonies[r.value].name == name
    {
      if c :| c in data.ceremonies && data.ceremonies[c].name == name {
        r := Some(c);
      } else {
        r := None;
      }
    }

    // ---- Writes ------------------------------------------------------------------

    method InsertUser(name: string, email: string, role: Role) returns (id: Id)
      requires Valid() && EmailFree(data, email)
      modifies this
      ensures Valid() && id == NextId(old(data)) && data == AddUser(old(data), name, email, role)
    {
      AddUserConsistent(data, name, email, role);
      id := NextId(data);
      data := AddUser(data, name, email, role);
    }

    method UpdateUser(id: Id, name: string, password: Option<string>)
      requires Valid() && id in data.users
      modifies this
      ensures Valid() && data == UpdateUserRow(old(data), id, name, password)
    {
      UpdateUserRowConsistent(data, id, name, password);
      data := UpdateUserRow(data, id, name, password);
    }

    method InsertTeam(name: string, description: string, createdById: Id) returns (id: Id)
      requires Valid()
      modifies this
      ensures Valid() && id == NextId(old(data)) && data == AddTeam(old(data), name, description, createdById)
    {
      AddTeamConsistent(data, name, description, createdById);
      id := NextId(data);
      data := AddTeam(data, name, description, createdById);
    }

    method InsertMember(m: Membership, role: string)
      requires Valid() && m.userId in data.users && m.teamId in data.teams
      modifies this
      ensures Valid() && data == AddMember(old(data), m, role)
    {
      AddMemberConsistent(data, m, role);
      data := AddMember(data, m, role);
    }

    method InsertProject(name: string, description: string, status: ProjectStatus,
                         startDate: string, endDate: string, createdById: Id) returns (id: Id)
      requires Valid()
      modifies this
      ensures Valid() && id == NextId(old(data))
      ensures data == AddProject(old(data), name, description, status, startDate, endDate, createdById)
    {
      AddProjectConsistent(data, name, description, status, startDate, endDate, createdById);
      id := NextId(data);
      data := AddProject(data, name, description, status, startDate, endDate, createdById);
    }

    method SetLinks(links: seq<ProjectTeam>)
      requires Valid() && NoDup(links)
      requires forall i :: 0 <= i < |links| ==> links[i].projectId in data.projects && links[i].teamId in data.teams
      modifies this
      ensures Valid() && data == WithLinks(old(data), links)
    {
      WithLinksConsistent(data, links);
      data := WithLinks(data, links);
    }

    method InsertCeremony(row: Ceremony) returns (id: Id)
      requires Valid()
      modifies this
      ensures Valid() && id == NextId(old(data)) && data == AddCeremony(old(data), row)
    {
      AddCeremonyConsistent(data, row);
      id := NextId(data);
      data := AddCeremony(data, row);
    }

    method UpdateCeremony(id: Id, row: Ceremony)
      requires Valid() && id in data.ceremonies
      modifies this
      ensures Valid() && data == UpdateCeremonyRow(old(data), id, row)
    {
      UpdateCeremonyRowConsistent(data, id, row);
      data := UpdateCeremonyRow(data, id, row);
    }

    method DeleteCeremony(id: Id)
      requires Valid() && forall p :: p in data.prompts ==> data.prompts[p].ceremonyId != id
      modifies this
      ensures Valid() && data == RemoveCeremony(old(data), id)
    {
      RemoveCeremonyConsistent(data, id);
      data := RemoveCeremony(data, id);
    }

    method InsertPrompt(row: Prompt) returns (id: Id)
      requires Valid()
      requires row.projectId in data.projects && row.teamId in data.teams && row.ceremonyId in data.ceremonies
      modifies this
      ensures Valid() && id == NextId(old(data)) && data == AddPrompt(old(data), row)
    {
      AddPromptConsistent(data, row);
      id := NextId(data);
      data := AddPrompt(data, row);
    }

    method SetStatus(id: Id, status: Status)
      requires Valid() && id in data.prompts
      modifies this
      ensures Valid() && data == WithStatus(old(data), id, status)
    {
      WithStatusConsistent(data, id, status);
      data := WithStatus(data, id, status);
    }

    method InsertResponse(promptId: Id, userId: Id, text: string, video: Option<string>) returns (id: Id)
      requires Valid() && promptId in data.prompts && NoResponse(data, promptId, userId)
      modifies this
      ensures Valid() && id == NextId(old(data)) && data == AddResponse(old(data), promptId, userId, text, video)
    {
      AddResponseConsistent(data, promptId, userId, text, video);
      id := NextId(data);
      data := AddResponse(data, promptId, userId, text, video);
    }

    method UpdateResponse(id: Id, text: string, video: Option<string>)
      requires Valid() && id in data.responses
      modifies this
      ensures Valid() && data == ReviseResponse(old(data), id, text, video)
    {
      ReviseResponseConsistent(data, id, text, video);
      data := ReviseResponse(data, id, text, video);
    }

    method InsertFeedback(responseId: Id, userId: Id, text: string) returns (id: Id)
      requires Valid() && responseId in data.responses
      modifies this
      ensures Valid() && id == NextId(old(data)) && data == AddFeedback(old(data), responseId, userId, text)
    {
      AddFeedbackConsistent(data, responseId, userId, text);
      id := NextId(data);
      data := AddFeedback(data, responseId, userId, text);
    }
  }
}
