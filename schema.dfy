/** The rows of the application's relational schema, as values. Identifiers are opaque text. */
module Schema {
  import opened Results

  type Id = string

  /** `UserRole`. */
  datatype Role = Admin | ScrumMaster | TeamMember

  /** A user account; `password` is absent for a user created by an invitation. */
  datatype User = User(id: Id, name: string, email: string, password: Option<string>, role: Role)

  datatype Team = Team(name: string, description: string, createdById: Id, createdAt: nat)

  /** The key of a `TeamMember` row: one row per (user, team) pair. */
  datatype Membership = Membership(userId: Id, teamId: Id)

  /** `ProjectStatus`. */
  datatype ProjectStatus = Planning | Active | Completed

  function ProjectStatusCode(s: ProjectStatus): string {
    match s
    case Planning => "PLANNING"
    case Active => "ACTIVE"
    case Completed => "COMPLETED"
  }

  /** The stored enum value spelled by `code`, if any; the store refuses any other text. */
  function ParseProjectStatus(code: string): (r: Option<ProjectStatus>)
    ensures r.Some? ==> ProjectStatusCode(r.value) == code
    ensures r.None? ==> forall s: ProjectStatus :: ProjectStatusCode(s) != code
  {
    if code == "PLANNING" then Some(Planning)
    else if code == "ACTIVE" then Some(Active)
    else if code == "COMPLETED" then Some(Completed)
    else None
  }

  /** The start and end dates are kept as the submitted text. */
  datatype Project = Project(name: string, description: string, status: ProjectStatus,
                             startDate: string, endDate: string, progress: int,
                             createdById: Id, createdAt: nat)

  /** A `ProjectTeam` link. */
  datatype ProjectTeam = ProjectTeam(projectId: Id, teamId: Id)

  /** The duration is kept as the submitted text. */
  datatype Ceremony = Ceremony(name: string, description: string, duration: string,
                               frequency: string, color: string, createdById: Id)

  /** `PromptStatus`. */
  datatype Status = Pending | InProgress | Complete

  function StatusCode(s: Status): string {
    match s
    case Pending => "PENDING"
    case InProgress => "IN_PROGRESS"
    case Complete => "COMPLETE"
  }

  /** The stored enum value spelled by `code`, if any; the store refuses any other text. */
  function ParseStatus(code: string): (r: Option<Status>)
    ensures r.Some? ==> StatusCode(r.value) == code
    ensures r.None? ==> forall s: Status :: StatusCode(s) != code
  {
    if code == "PENDING" then Some(Pending)
    else if code == "IN_PROGRESS" then Some(InProgress)
    else if code == "COMPLETE" then Some(Complete)
    else None
  }

  /** The deadline as the date and time fields it is built from. */
  datatype Deadline = Deadline(date: string, time: string)

  datatype Prompt = Prompt(title: string, description: string, projectId: Id, teamId: Id,
                           ceremonyId: Id, deadline: Deadline, status: Status,
                           videoUrl: Option<string>, createdById: Id, createdAt: nat)

  datatype Response = Response(promptId: Id, userId: Id, textResponse: string,
                               videoResponse: Option<string>, submittedAt: nat)

  datatype Feedback = Feedback(responseId: Id, userId: Id, text: string)
}
