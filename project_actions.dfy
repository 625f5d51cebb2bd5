/** actions/project-actions.ts: creating a project, and setting the teams assigned to a project.
    The assignment computes which requested teams are not linked yet and which linked teams are
    no longer requested, then applies the deletions and the creations in one transaction. */
module ProjectActions {
  import opened Results
  import opened Schema
  import opened Text
  import opened Seqs
  import opened Auth
  import opened Store

  const AllFieldsRequired := "All fields are required"
  const CreateProjectFailed := "Failed to create project"
  const AssignRequired := "Project ID and at least one team are required"
  const AssignFailed := "Failed to assign teams to project"

  /** `createProject`. The status is upper-cased before it is stored; text that then names no
      project status is refused by the store, which lands in the generic failure. */
  method CreateProject(db: Store, current: Option<User>, name: string, description: string, status: string,
                       startDate: string, endDate: string) returns (r: Result<Id>)
    requires db.Valid()
    modifies db
    ensures db.Valid()
    ensures var t := old(db.data);
      if RequireRole(current, ScrumMaster).Err? then r == Err(CreateProjectFailed) && db.data == t
      else if name == "" || description == "" || status == "" || startDate == "" || endDate == "" then
        r == Err(AllFieldsRequired) && db.data == t
      else if ParseProjectStatus(Upper(status)).None? then r == Err(CreateProjectFailed) && db.data == t
      else r == Ok(NextId(t)) && db.data == AddProject(t, name, description, ParseProjectStatus(Upper(status)).value,
                                                       startDate, endDate, current.value.id)
  {
    var auth := RequireRole(current, ScrumMaster);
    if auth.Err? {
      return Err(CreateProjectFailed);
    }
    if name == "" || description == "" || status == "" || startDate == "" || endDate == "" {
      return Err(AllFieldsRequired);
    }
    var parsed := ParseProjectStatus(Upper(status));
    if parsed.None? {
      return Err(CreateProjectFailed);
    }
    var id := db.InsertProject(name, description, parsed.value, startDate, endDate, auth.value.id);
    r := Ok(id);
  }

  /** A created project gets a fresh id, the upper-cased status, progress 0 and its creator. */
  lemma CreatedProject(t: Tables, name: string, description: string, status: string,
                       startDate: string, endDate: string, createdById: Id)
    requires Consistent(t) && ParseProjectStatus(Upper(status)).Some?
    ensures var s := ParseProjectStatus(Upper(status)).value;
            var t' := AddProject(t, name, description, s, startDate, endDate, createdById);
            && NextId(t) !in t.projects && t'.projects.Keys == t.projects.Keys + {NextId(t)}
            && ProjectStatusCode(t'.projects[NextId(t)].status) == Upper(status)
            && t'.projects[NextId(t)].progress == 0
            && t'.projects[NextId(t)].createdById == createdById
  {
    NextIdFresh(t);
  }

  /** The status text is accepted in any letter case. */
  lemma StatusCaseInsensitive(status: string)
    ensures ParseProjectStatus(Upper(Lower(status))) == ParseProjectStatus(Upper(status))
  {
    UpperOfLower(status);
  }

  /** `currentAssignments.map((a) => a.teamId)`: the teams linked to the project, in link order. */
  function CurrentTeamIds(t: Tables, projectId: Id): (r: seq<Id>)
    ensures forall id :: id in r <==> ProjectTeam(projectId, id) in t.links
  {
    var links := LinksOfProject(t, projectId);
    var r := seq(|links|, i requires 0 <= i < |links| => links[i].teamId);
    forall id ensures id in r <==> ProjectTeam(projectId, id) in t.links {
      if id in r {
        var i :| 0 <= i < |r| && r[i] == id;
        assert links[i] == ProjectTeam(projectId, id);
      }
      if ProjectTeam(projectId, id) in t.links {
        assert ProjectTeam(projectId, id) in links;
        var i :| 0 <= i < |links| && links[i] == ProjectTeam(projectId, id);
        assert r[i] == id;
      }
    }
    r
  }

  /** `s.filter((id) => !excluded.includes(id))`: the ids of `s` outside `excluded`, in the order
      of `s` and each as often as `s` holds it. */
  function Without(s: seq<Id>, excluded: seq<Id>): (r: seq<Id>)
    ensures forall id :: id in r <==> id in s && id !in excluded
    ensures forall id :: multiset(r)[id] == if id in excluded then 0 else multiset(s)[id]
    ensures Subsequence(r, s)
  {
    FilterIsSubsequence(s, (id: Id) => id !in excluded);
    FilterMultiset(s, (id: Id) => id !in excluded);
    Filter(s, (id: Id) => id !in excluded)
  }

  /** `teamsToAdd`: the requested teams not linked yet. */
  function TeamsToAdd(teamIds: seq<Id>, current: seq<Id>): seq<Id> {
    Without(teamIds, current)
  }

  /** `teamsToRemove`: the linked teams no longer requested. */
  function TeamsToRemove(current: seq<Id>, teamIds: seq<Id>): seq<Id> {
    Without(current, teamIds)
  }

  /** The `deleteMany`: the links that survive, in their order. */
  function Kept(links: seq<ProjectTeam>, projectId: Id, toRemove: seq<Id>): (r: seq<ProjectTeam>)
    ensures forall l :: l in r <==> l in links && !(l.projectId == projectId && l.teamId in toRemove)
    ensures Subsequence(r, links)
  {
    FilterIsSubsequence(links, (l: ProjectTeam) => !(l.projectId == projectId && l.teamId in toRemove));
    Filter(links, (l: ProjectTeam) => !(l.projectId == projectId && l.teamId in toRemove))
  }

  /** The `create`s: one link per team to add, in order. */
  function Created(projectId: Id, toAdd: seq<Id>): (r: seq<ProjectTeam>)
    ensures |r| == |toAdd|
    ensures forall i :: 0 <= i < |r| ==> r[i] == ProjectTeam(projectId, toAdd[i])
  {
    seq(|toAdd|, i requires 0 <= i < |toAdd| => ProjectTeam(projectId, toAdd[i]))
  }

  /** The links after the transaction commits. */
  function Reassigned(links: seq<ProjectTeam>, projectId: Id, toRemove: seq<Id>, toAdd: seq<Id>): seq<ProjectTeam> {
    Kept(links, projectId, toRemove) + Created(projectId, toAdd)
  }

  /** Every `create` of the transaction succeeds: each team exists, the project does when there
      is something to create, and no link is created twice or over a surviving one. */
  ghost predicate Creatable(t: Tables, projectId: Id, toRemove: seq<Id>, toAdd: seq<Id>) {
    && (forall i :: 0 <= i < |toAdd| ==> toAdd[i] in t.teams)
    && (toAdd != [] ==> projectId in t.projects)
    && NoDup(toAdd)
    && (forall i :: 0 <= i < |toAdd| ==> ProjectTeam(projectId, toAdd[i]) !in Kept(t.links, projectId, toRemove))
  }

  lemma CreatableWhenAllCreated(t: Tables, projectId: Id, toRemove: seq<Id>, toAdd: seq<Id>)
    requires NoDup(toAdd)
    requires (forall k :: 0 <= k < |toAdd| ==> toAdd[k] in t.teams) && (toAdd != [] ==> projectId in t.projects)
    requires forall k :: 0 <= k < |toAdd| ==> ProjectTeam(projectId, toAdd[k]) !in Kept(t.links, projectId, toRemove)
    ensures Creatable(t, projectId, toRemove, toAdd)
  {
  }

  /** The `$transaction` worked out before it commits: the deletion, then the creations one by
      one; the first creation the store would refuse rolls the whole transaction back. */
  method PlanAssignment(t: Tables, projectId: Id, toRemove: seq<Id>, toAdd: seq<Id>)
    returns (links: Option<seq<ProjectTeam>>)
    requires NoDup(t.links)
    ensures links.Some? <==> Creatable(t, projectId, toRemove, toAdd)
    ensures links.Some? ==> links.value == Reassigned(t.links, projectId, toRemove, toAdd) && NoDup(links.value)
  {
    var kept := Kept(t.links, projectId, toRemove);
    FilterNoDup(t.links, (l: ProjectTeam) => !(l.projectId == projectId && l.teamId in toRemove));
    var created: seq<ProjectTeam> := [];
    var i := 0;
    while i < |toAdd|
      invariant 0 <= i <= |toAdd|
      invariant created == Created(projectId, toAdd[..i])
      invariant NoDup(toAdd[..i]) && NoDup(kept + created)
      invariant forall k :: 0 <= k < i ==> toAdd[k] in t.teams
      invariant i > 0 ==> projectId in t.projects
      invariant forall k :: 0 <= k < i ==> ProjectTeam(projectId, toAdd[k]) !in kept
    {
      var link := ProjectTeam(projectId, toAdd[i]);
      if toAdd[i] !in t.teams || projectId !in t.projects || link in kept || link in created {
        if toAdd[i] !in t.teams || projectId !in t.projects {
          assert toAdd != [];
        } else if link in kept {
          assert ProjectTeam(projectId, toAdd[i]) in Kept(t.links, projectId, toRemove);
        } else {
          var k :| 0 <= k < |created| && created[k] == link;
          assert toAdd[k] == toAdd[i] && k < i;
          assert !NoDup(toAdd);
        }
        assert !Creatable(t, projectId, toRemove, toAdd);
        return None;
      }
      assert toAdd[..i + 1] == toAdd[..i] + [toAdd[i]];
      assert toAdd[i] !in toAdd[..i];
      NoDupAppend(toAdd[..i], toAdd[i]);
      assert link !in kept + created;
      NoDupAppend(kept + created, link);
      assert kept + created + [link] == kept + (created + [link]);
      created := created + [link];
      i := i + 1;
    }
    assert i == |toAdd| && toAdd[..i] == toAdd;
    assert NoDup(toAdd);
    forall k | 0 <= k < |toAdd|
      ensures toAdd[k] in t.teams
      ensures ProjectTeam(projectId, toAdd[k]) !in Kept(t.links, projectId, toRemove)
    {
      assert k < i;
    }
    CreatableWhenAllCreated(t, projectId, toRemove, toAdd);
    links := Some(kept + created);
  }

  /** A transaction that can commit leaves only links between stored projects and teams. */
  lemma ReassignedLinksStored(t: Tables, projectId: Id, toRemove: seq<Id>, toAdd: seq<Id>)
    requires LinksOk(t.links, t.projects, t.teams) && Creatable(t, projectId, toRemove, toAdd)
    ensures var links := Reassigned(t.links, projectId, toRemove, toAdd);
            forall i :: 0 <= i < |links| ==> links[i].projectId in t.projects && links[i].teamId in t.teams
  {
    var kept := Kept(t.links, projectId, toRemove);
    var links := kept + Created(projectId, toAdd);
    forall i | 0 <= i < |links| ensures links[i].projectId in t.projects && links[i].teamId in t.teams {
      if i < |kept| {
        assert links[i] in t.links;
      } else {
        assert links[i] == ProjectTeam(projectId, toAdd[i - |kept|]);
      }
    }
  }

  /** The `$transaction`, all or nothing. */
  method RunAssignment(db: Store, projectId: Id, toRemove: seq<Id>, toAdd: seq<Id>) returns (ok: bool)
    requires db.Valid()
    modifies db
    ensures db.Valid()
    ensures ok <==> Creatable(old(db.data), projectId, toRemove, toAdd)
    ensures ok ==> db.data == WithLinks(old(db.data), Reassigned(old(db.data).links, projectId, toRemove, toAdd))
    ensures !ok ==> db.data == old(db.data)
  {
    var plan := PlanAssignment(db.data, projectId, toRemove, toAdd);
    if plan.None? {
      return false;
    }
    ReassignedLinksStored(db.data, projectId, toRemove, toAdd);
    db.SetLinks(plan.value);
    ok := true;
  }

  /** `assignTeamToProject`. */
  method AssignTeamToProject(db: Store, current: Option<User>, projectId: string, teamIds: seq<string>)
    returns (r: Result<()>)
    requires db.Valid()
    modifies db
    ensures db.Valid()
    ensures var t := old(db.data);
      if RequireRole(current, ScrumMaster).Err? then r == Err(AssignFailed) && db.data == t
      else if projectId == "" || |teamIds| == 0 then r == Err(AssignRequired) && db.data == t
      else
        var linked := CurrentTeamIds(t, projectId);
        var toAdd := TeamsToAdd(teamIds, linked);
        var toRemove := TeamsToRemove(linked, teamIds);
        if Creatable(t, projectId, toRemove, toAdd) then
          r == Ok(()) && db.data == WithLinks(t, Reassigned(t.links, projectId, toRemove, toAdd))
        else r == Err(AssignFailed) && db.data == t
  {
    var auth := RequireRole(current, ScrumMaster);
    if auth.Err? {
      return Err(AssignFailed);
    }
    if projectId == "" || |teamIds| == 0 {
      return Err(AssignRequired);
    }
    var linked := CurrentTeamIds(db.data, projectId);
    var toAdd := TeamsToAdd(teamIds, linked);
    var toRemove := TeamsToRemove(linked, teamIds);
    var ok := RunAssignment(db, projectId, toRemove, toAdd);
    r := if ok then Ok(()) else Err(AssignFailed);
  }

  /** The assignment with the differences it computes. */
  function Assigned(t: Tables, projectId: Id, teamIds: seq<Id>): seq<ProjectTeam> {
    var linked := CurrentTeamIds(t, projectId);
    Reassigned(t.links, projectId, TeamsToRemove(linked, teamIds), TeamsToAdd(teamIds, linked))
  }

  /** After the assignment the project is linked to exactly the requested teams. */
  lemma AssignedTeamsAreRequested(t: Tables, projectId: Id, teamIds: seq<Id>, id: Id)
    ensures ProjectTeam(projectId, id) in Assigned(t, projectId, teamIds) <==> id in teamIds
  {
    var linked := CurrentTeamIds(t, projectId);
    var toAdd := TeamsToAdd(teamIds, linked);
    var toRemove := TeamsToRemove(linked, teamIds);
    var kept := Kept(t.links, projectId, toRemove);
    var created := Created(projectId, toAdd);
    var link := ProjectTeam(projectId, id);
    assert link in created <==> id in toAdd by {
      if link in created {
        var i :| 0 <= i < |created| && created[i] == link;
        assert toAdd[i] == id;
      }
      if id in toAdd {
        var i :| 0 <= i < |toAdd| && toAdd[i] == id;
        assert created[i] == link;
      }
    }
  }

  /** A requested team that is linked already keeps its link: it is neither deleted nor
      created again. */
  lemma AssignmentKeepsLinks(t: Tables, projectId: Id, teamIds: seq<Id>, id: Id)
    requires id in teamIds && ProjectTeam(projectId, id) in t.links
    ensures var linked := CurrentTeamIds(t, projectId);
            && ProjectTeam(projectId, id) in Kept(t.links, projectId, TeamsToRemove(linked, teamIds))
            && id !in TeamsToAdd(teamIds, linked)
  {
  }

  /** The links of the other projects, in order. */
  function LinksElsewhere(links: seq<ProjectTeam>, projectId: Id): seq<ProjectTeam> {
    Filter(links, Elsewhere(projectId))
  }

  function Elsewhere(projectId: Id): ProjectTeam -> bool {
    (l: ProjectTeam) => l.projectId != projectId
  }

  /** The assignment leaves the links of every other project as they were, in their order. */
  lemma {:induction false} AssignmentLeavesOtherProjects(links: seq<ProjectTeam>, projectId: Id,
                                                          toRemove: seq<Id>, toAdd: seq<Id>)
    ensures LinksElsewhere(Reassigned(links, projectId, toRemove, toAdd), projectId) == LinksElsewhere(links, projectId)
  {
    var p := Elsewhere(projectId);
    var keep := (l: ProjectTeam) => !(l.projectId == projectId && l.teamId in toRemove);
    var kept := Kept(links, projectId, toRemove);
    var created := Created(projectId, toAdd);
    FilterConcat(kept, created, p);
    FilterNone(created, p);
    assert kept == Filter(links, keep);
    FilterFilter(links, keep, p);
  }

  /** With duplicate-free requested teams that all exist, and an existing project, the
      transaction commits. */
  lemma AssignmentCommits(t: Tables, projectId: Id, teamIds: seq<Id>)
    requires Consistent(t) && projectId in t.projects && NoDup(teamIds)
    requires forall i :: 0 <= i < |teamIds| ==> teamIds[i] in t.teams
    ensures var linked := CurrentTeamIds(t, projectId);
            Creatable(t, projectId, TeamsToRemove(linked, teamIds), TeamsToAdd(teamIds, linked))
  {
    var linked := CurrentTeamIds(t, projectId);
    var toAdd := TeamsToAdd(teamIds, linked);
    FilterNoDup(teamIds, (id: Id) => id !in linked);
    assert NoDup(toAdd);
    forall i | 0 <= i < |toAdd| ensures toAdd[i] in t.teams {
      assert toAdd[i] in teamIds;
    }
  }
}
