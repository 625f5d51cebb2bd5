/** actions/prompt-actions.ts: creating a prompt, submitting a response (with the prompt's
    status moving along PENDING, IN_PROGRESS, COMPLETE) and sending feedback. Every store
    failure inside the actions' `try` becomes the generic failure message; so does a failed
    authorization, which throws inside the same `try`. */
module PromptActions {
  import opened Results
  import opened Schema
  import opened Auth
  import opened Seqs
  import opened Store

  const FieldsRequired := "All required fields must be filled"
  const TeamNotFound := "Team not found"
  const CeremonyNotFound := "Ceremony type not found"
  const TeamWithoutProject := "Team is not associated with any project"
  const CreateFailed := "Failed to create prompt"
  const ContentRequired := "Response content is required"
  const SubmitFailed := "Failed to submit response"
  const FeedbackRequired := "Feedback text is required"
  const FeedbackFailed := "Failed to send feedback"

  /** `formData.get(...) || null`: an empty optional field is stored as absent. */
  function OrNull(s: string): (r: Option<string>)
    ensures r.None? <==> s == ""
    ensures r.Some? ==> r.value == s
  {
    if s == "" then None else Some(s)
  }

  /** The position of a status on the prompt lifecycle PENDING, IN_PROGRESS, COMPLETE. */
  function Rank(s: Status): nat {
    match s
    case Pending => 0
    case InProgress => 1
    case Complete => 2
  }

  /** The status `submitResponse` leaves on a prompt whose status was `current` once a first
      response by some user has been added, bringing the prompt to `responses` responses, its
      team having `members` members. The status only moves forward, never is PENDING
      afterwards, and never leaves COMPLETE. */
  function StatusAfterSubmit(current: Status, responses: nat, members: nat): (s: Status)
    ensures Rank(s) >= Rank(current)
    ensures s != Pending
    ensures s == Complete <==> responses == members || current == Complete
    ensures s == InProgress <==> responses != members && current != Complete
  {
    if responses == members then Complete
    else if current == Pending then InProgress
    else current
  }

  /** The status of a fresh prompt after `k` team members have each submitted a first response. */
  function StatusAfterSubmissions(k: nat, members: nat): Status {
    if k == 0 then Pending else StatusAfterSubmit(StatusAfterSubmissions(k - 1, members), k, members)
  }

  /** With a team of `members`, the prompt is PENDING before any response, IN_PROGRESS while some
      but not all members have responded, and COMPLETE once all have. */
  lemma {:induction false} SubmissionsTrace(k: nat, members: nat)
    requires k <= members
    ensures StatusAfterSubmissions(k, members)
            == if k == 0 then Pending else if k == members then Complete else InProgress
  {
    if k > 0 {
      SubmissionsTrace(k - 1, members);
    }
  }

  /** Some of title, description, team, ceremony type, date and time is empty. */
  predicate MissingPromptField(title: string, description: string, teamId: string,
                               ceremonyType: string, date: string, time: string)
  {
    title == "" || description == "" || teamId == "" || ceremonyType == "" || date == "" || time == ""
  }

  /** The row `createPrompt` asks the store to create: PENDING, with the deadline built from the
      date and time fields and an empty video field stored as absent. The store stamps the
      creation time. */
  function NewPrompt(title: string, description: string, projectId: Id, teamId: Id, ceremonyId: Id,
                     date: string, time: string, videoUrl: string, createdById: Id): (p: Prompt)
    ensures p.status == Pending && p.createdById == createdById
    ensures p.projectId == projectId && p.teamId == teamId && p.ceremonyId == ceremonyId
    ensures p.videoUrl.None? <==> videoUrl == ""
  {
    Prompt(title, description, projectId, teamId, ceremonyId, Deadline(date, time), Pending,
           OrNull(videoUrl), createdById, 0)
  }

  /** `createPrompt`. The checks come in order: role, required fields, the team, a ceremony with
      the given name, a project linked to the team; each failure leaves the store as it was.
      The prompt created belongs to the project of the team's first link and to a ceremony
      carrying the requested name. */
  method CreatePrompt(db: Store, current: Option<User>, title: string, description: string,
                      teamId: string, ceremonyType: string, date: string, time: string,
                      videoUrl: string) returns (r: Result<Id>)
    requires db.Valid()
    modifies db
    ensures db.Valid()
    ensures r.Err? ==> db.data == old(db.data)
    ensures RequireRole(current, ScrumMaster).Err? ==> r == Err(CreateFailed)
    ensures RequireRole(current, ScrumMaster).Ok? ==>
      var t := old(db.data);
      if MissingPromptField(title, description, teamId, ceremonyType, date, time) then r == Err(FieldsRequired)
      else if teamId !in t.teams then r == Err(TeamNotFound)
      else if forall c :: c in t.ceremonies ==> t.ceremonies[c].name != ceremonyType then r == Err(CeremonyNotFound)
      else if LinksOfTeam(t, teamId) == [] then r == Err(TeamWithoutProject)
      else
        && r == Ok(NextId(t))
        && exists c :: c in t.ceremonies && t.ceremonies[c].name == ceremonyType
                       && db.data == AddPrompt(t, NewPrompt(title, description, LinksOfTeam(t, teamId)[0].projectId,
                                                            teamId, c, date, time, videoUrl, current.value.id))
  {
    var auth := RequireRole(current, ScrumMaster);
    if auth.Err? {
      return Err(CreateFailed);
    }
    var user := auth.value;
    if MissingPromptField(title, description, teamId, ceremonyType, date, time) {
      return Err(FieldsRequired);
    }
    if teamId !in db.data.teams {
      return Err(TeamNotFound);
    }
    var ceremony := db.FindCeremonyByName(ceremonyType);
    if ceremony.None? {
      return Err(CeremonyNotFound);
    }
    var teamLinks := LinksOfTeam(db.data, teamId);
    if |teamLinks| == 0 {
      return Err(TeamWithoutProject);
    }
    var row := NewPrompt(title, description, teamLinks[0].projectId, teamId, ceremony.value, date, time,
                         videoUrl, user.id);
    var id := db.InsertPrompt(row);
    r := Ok(id);
  }

  /** The submission names a prompt and carries a text or a video. */
  predicate HasContent(promptId: string, text: string, video: string) {
    promptId != "" && (text != "" || video != "")
  }

  /** The store after `submitResponse` records `userId`'s first response to prompt `promptId`:
      the response is added, and the prompt becomes COMPLETE when its responses are as many as
      its team's members, and IN_PROGRESS when it was PENDING. */
  function AfterFirstResponse(t: Tables, promptId: Id, userId: Id, text: string, video: Option<string>): Tables
    requires promptId in t.prompts
  {
    var added := AddResponse(t, promptId, userId, text, video);
    var prompt := t.prompts[promptId];
    if ResponseCount(added, promptId) == MemberCount(t, prompt.teamId) then WithStatus(added, promptId, Complete)
    else if prompt.status == Pending then WithStatus(added, promptId, InProgress)
    else added
  }

  /** Whichever branch it takes, a first response leaves the prompt with the status
      `StatusAfterSubmit` computes: a branch that writes no status keeps the status it has. */
  lemma FirstResponseShape(t: Tables, promptId: Id, userId: Id, text: string, video: Option<string>)
    requires promptId in t.prompts
    ensures var added := AddResponse(t, promptId, userId, text, video);
            var p := t.prompts[promptId];
            AfterFirstResponse(t, promptId, userId, text, video)
            == WithStatus(added, promptId, StatusAfterSubmit(p.status, ResponseCount(added, promptId), MemberCount(t, p.teamId)))
  {
    var added := AddResponse(t, promptId, userId, text, video);
    var p := t.prompts[promptId];
    if StatusAfterSubmit(p.status, ResponseCount(added, promptId), MemberCount(t, p.teamId)) == p.status {
      assert added.prompts[promptId := p.(status := p.status)] == added.prompts;
    }
  }

  /** A first response adds exactly one response, to that prompt, stamped with the clock. */
  lemma FirstResponseAdds(t: Tables, promptId: Id, userId: Id, text: string, video: Option<string>)
    requires promptId in t.prompts && NextId(t) !in t.responses
    ensures var t' := AfterFirstResponse(t, promptId, userId, text, video);
            && t'.responses == t.responses[NextId(t) := Response(promptId, userId, text, video, t'.counter)]
            && t'.counter == t.counter + 1
            && ResponseCount(t', promptId) == ResponseCount(t, promptId) + 1
  {
    FirstResponseShape(t, promptId, userId, text, video);
    AddResponseCount(t, promptId, userId, text, video, promptId);
  }

  /** A first response changes no prompt but its own, and that one only in its status, which
      becomes what `StatusAfterSubmit` says: it moves forward, is never PENDING afterwards and
      never leaves COMPLETE. */
  lemma FirstResponseStatus(t: Tables, promptId: Id, userId: Id, text: string, video: Option<string>)
    requires promptId in t.prompts && NextId(t) !in t.responses
    ensures var t' := AfterFirstResponse(t, promptId, userId, text, video);
            var p := t.prompts[promptId];
            var s := StatusAfterSubmit(p.status, ResponseCount(t, promptId) + 1, MemberCount(t, p.teamId));
            && t'.prompts == t.prompts[promptId := p.(status := s)]
            && Rank(s) >= Rank(p.status) && s != Pending
  {
    FirstResponseShape(t, promptId, userId, text, video);
    AddResponseCount(t, promptId, userId, text, video, promptId);
  }

  /** A first response leaves users, teams, memberships, projects, links, ceremonies and
      feedback as they were. */
  lemma FirstResponseFrame(t: Tables, promptId: Id, userId: Id, text: string, video: Option<string>)
    requires promptId in t.prompts
    ensures var t' := AfterFirstResponse(t, promptId, userId, text, video);
            && t'.users == t.users && t'.members == t.members && t'.teams == t.teams
            && t'.projects == t.projects && t'.links == t.links && t'.ceremonies == t.ceremonies
            && t'.feedback == t.feedback
  {
    FirstResponseShape(t, promptId, userId, text, video);
  }

  /** A re-submission rewrites the text, the video and the submission time of that one
      response, and changes no prompt and no response count. */
  lemma ResubmissionEffect(t: Tables, id: Id, text: string, video: Option<string>)
    requires id in t.responses
    ensures var t' := ReviseResponse(t, id, text, video);
            && t'.responses.Keys == t.responses.Keys
            && PairOf(t'.responses[id]) == PairOf(t.responses[id])
            && t'.responses[id].textResponse == text && t'.responses[id].videoResponse == video
            && t'.responses[id].submittedAt == t'.counter > t.counter
            && (forall r :: r in t.responses && r != id ==> t'.responses[r] == t.responses[r])
            && t'.prompts == t.prompts
            && forall p :: ResponseCount(t', p) == ResponseCount(t, p)
  {
    forall p ensures ResponseCount(ReviseResponse(t, id, text, video), p) == ResponseCount(t, p) {
      ReviseResponseCount(t, id, text, video, p);
    }
  }

  /** What `submitResponse` does past its validation, for user `userId`. */
  ghost predicate Submitted(t: Tables, t': Tables, r: Result<Id>, promptId: Id, userId: Id,
                            text: string, video: Option<string>)
  {
    if !NoResponse(t, promptId, userId) then
      && r.Ok? && r.value in t.responses && PairOf(t.responses[r.value]) == (promptId, userId)
      && t' == ReviseResponse(t, r.value, text, video)
    else if promptId !in t.prompts then r == Err(SubmitFailed) && t' == t
    else r == Ok(NextId(t)) && t' == AfterFirstResponse(t, promptId, userId, text, video)
  }

  /** `submitResponse`. A second submission by the same user rewrites that user's one response
      and leaves the prompt alone; a first one adds a response and moves the prompt's status. */
  method SubmitResponse(db: Store, current: Option<User>, promptId: string, text: string,
                        video: string) returns (r: Result<Id>)
    requires db.Valid()
    modifies db
    ensures db.Valid()
    ensures current.None? ==> r == Err(SubmitFailed) && db.data == old(db.data)
    ensures current.Some? && !HasContent(promptId, text, video) ==>
              r == Err(ContentRequired) && db.data == old(db.data)
    ensures current.Some? && HasContent(promptId, text, video) ==>
              Submitted(old(db.data), db.data, r, promptId, current.value.id, text, OrNull(video))
  {
    var auth := RequireAuth(current);
    if auth.Err? {
      return Err(SubmitFailed);
    }
    if !HasContent(promptId, text, video) {
      return Err(ContentRequired);
    }
    r := SubmitAs(db, auth.value.id, promptId, text, OrNull(video));
  }

  /** `submitResponse` past its authentication and validation: the user's existing response to
      the prompt is rewritten, or a first one is recorded. */
  method SubmitAs(db: Store, userId: Id, promptId: Id, text: string, video: Option<string>)
    returns (r: Result<Id>)
    requires db.Valid()
    modifies db
    ensures db.Valid() && Submitted(old(db.data), db.data, r, promptId, userId, text, video)
  {
    var existing := db.FindResponse(promptId, userId);
    if existing.Some? {
      db.UpdateResponse(existing.value, text, video);
      r := Ok(existing.value);
    } else if promptId !in db.data.prompts {
      // The insert violates the response's foreign key to its prompt.
      r := Err(SubmitFailed);
    } else {
      r := RecordFirstResponse(db, promptId, userId, text, video);
    }
  }

  /** The branch of `submitResponse` for a user's first response to an existing prompt. */
  method RecordFirstResponse(db: Store, promptId: Id, userId: Id, text: string,
                             video: Option<string>) returns (r: Result<Id>)
    requires db.Valid() && NoResponse(db.data, promptId, userId) && promptId in db.data.prompts
    modifies db
    ensures db.Valid() && r == Ok(NextId(old(db.data)))
    ensures db.data == AfterFirstResponse(old(db.data), promptId, userId, text, video)
  {
    var prompt := db.data.prompts[promptId];
    var memberCount := MemberCount(db.data, prompt.teamId);
    var id := db.InsertResponse(promptId, userId, text, video);
    var responseCount := ResponseCount(db.data, promptId);
    if responseCount == memberCount {
      db.SetStatus(promptId, Complete);
    } else if prompt.status == Pending {
      db.SetStatus(promptId, InProgress);
    }
    r := Ok(id);
  }

  /** `sendFeedback`: one new feedback row on the response, authored by the caller. */
  method SendFeedback(db: Store, current: Option<User>, responseId: string, text: string)
    returns (r: Result<Id>)
    requires db.Valid()
    modifies db
    ensures db.Valid()
    ensures r.Err? ==> db.data == old(db.data)
    ensures RequireRole(current, ScrumMaster).Err? ==> r == Err(FeedbackFailed)
    ensures RequireRole(current, ScrumMaster).Ok? ==>
      if responseId == "" || text == "" then r == Err(FeedbackRequired)
      else if responseId !in old(db.data).responses then r == Err(FeedbackFailed)
      else r == Ok(NextId(old(db.data))) && db.data == AddFeedback(old(db.data), responseId, current.value.id, text)
  {
    var auth := RequireRole(current, ScrumMaster);
    if auth.Err? {
      return Err(FeedbackFailed);
    }
    if responseId == "" || text == "" {
      return Err(FeedbackRequired);
    }
    if responseId !in db.data.responses {
      // The insert violates the feedback's foreign key to its response.
      return Err(FeedbackFailed);
    }
    var id := db.InsertFeedback(responseId, auth.value.id, text);
    r := Ok(id);
  }

  /** A feedback row gets a fresh id and is the only row that changes. */
  lemma FeedbackEffect(t: Tables, responseId: Id, userId: Id, text: string)
    requires Consistent(t)
    ensures var t' := AddFeedback(t, responseId, userId, text);
            && NextId(t) !in t.feedback && t'.feedback == t.feedback[NextId(t) := Feedback(responseId, userId, text)]
            && |t'.feedback.Keys| == |t.feedback.Keys| + 1
            && t'.responses == t.responses && t'.prompts == t.prompts
  {
    NextIdFresh(t);
  }
}
