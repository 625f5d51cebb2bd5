/** app/api/responses/route.ts, `POST`: the same upsert as `submitResponse`, answered in HTTP
    terms, without validation of the body, and with a status rule of its own: a first response
    makes the prompt COMPLETE when every team member has responded and otherwise leaves the
    status alone; it never sets IN_PROGRESS. */
module ResponsesRoute {
  import opened Results
  import opened Schema
  import opened Auth
  import opened Store
  import opened PromptActions

  const Ok200 := 200
  const Created201 := 201
  const ServerError500 := 500

  /** The error body of the catch branch. */
  const FailedToSubmit := "Failed to submit response"

  /** The store after the route records `userId`'s first response to prompt `promptId`. */
  function AfterRouteCreate(t: Tables, promptId: Id, userId: Id, text: string, video: Option<string>): Tables
    requires promptId in t.prompts
  {
    var added := AddResponse(t, promptId, userId, text, video);
    var prompt := t.prompts[promptId];
    if ResponseCount(added, promptId) == MemberCount(t, prompt.teamId) then WithStatus(added, promptId, Complete)
    else added
  }

  /** The status the route leaves on a prompt at `current` whose first-time responses now number
      `responses`, its team having `members` members. */
  function RouteStatus(current: Status, responses: nat, members: nat): (s: Status)
    ensures s == Complete <==> responses == members || current == Complete
    ensures s != Complete ==> s == current
    ensures Rank(s) >= Rank(current)
  {
    if responses == members then Complete else current
  }

  /** Whichever branch it takes, the route leaves the prompt with the status `RouteStatus`
      computes. */
  lemma RouteCreateShape(t: Tables, promptId: Id, userId: Id, text: string, video: Option<string>)
    requires promptId in t.prompts
    ensures var added := AddResponse(t, promptId, userId, text, video);
            var p := t.prompts[promptId];
            AfterRouteCreate(t, promptId, userId, text, video)
            == WithStatus(added, promptId, RouteStatus(p.status, ResponseCount(added, promptId), MemberCount(t, p.teamId)))
  {
    var added := AddResponse(t, promptId, userId, text, video);
    var p := t.prompts[promptId];
    if ResponseCount(added, promptId) != MemberCount(t, p.teamId) {
      assert added.prompts[promptId := p.(status := p.status)] == added.prompts;
    }
  }

  /** A first response through the route adds exactly one response and changes no prompt but its
      own, and that one only to COMPLETE, exactly when the responses now match the members. */
  lemma RouteCreateEffect(t: Tables, promptId: Id, userId: Id, text: string, video: Option<string>)
    requires promptId in t.prompts && NextId(t) !in t.responses
    ensures var t' := AfterRouteCreate(t, promptId, userId, text, video);
            var p := t.prompts[promptId];
            var n := ResponseCount(t, promptId) + 1;
            && t'.responses == t.responses[NextId(t) := Response(promptId, userId, text, video, t'.counter)]
            && ResponseCount(t', promptId) == n
            && t'.prompts == t.prompts[promptId := p.(status := RouteStatus(p.status, n, MemberCount(t, p.teamId)))]
            && (t'.prompts[promptId].status == InProgress ==> p.status == InProgress)
  {
    RouteCreateShape(t, promptId, userId, text, video);
    AddResponseCount(t, promptId, userId, text, video, promptId);
  }

  /** The action and the route part ways on a PENDING prompt that some but not all members have
      answered: the action marks it IN_PROGRESS, the route leaves it PENDING. Everywhere else
      the two leave the same store. */
  lemma ActionAndRouteDiffer(t: Tables, promptId: Id, userId: Id, text: string, video: Option<string>)
    requires promptId in t.prompts && NextId(t) !in t.responses
    ensures var p := t.prompts[promptId];
            var partial := ResponseCount(t, promptId) + 1 != MemberCount(t, p.teamId);
            var action := AfterFirstResponse(t, promptId, userId, text, video);
            var route := AfterRouteCreate(t, promptId, userId, text, video);
            && (p.status == Pending && partial ==>
                  action.prompts[promptId].status == InProgress && route.prompts[promptId].status == Pending)
            && (p.status != Pending || !partial ==> action == route)
  {
    FirstResponseShape(t, promptId, userId, text, video);
    RouteCreateShape(t, promptId, userId, text, video);
    AddResponseCount(t, promptId, userId, text, video, promptId);
  }

  /** `POST /api/responses`: 200 with the rewritten response when the caller already answered
      the prompt; 201 with the new one otherwise; 500 when there is no signed-in user or the
      insert fails on a missing prompt. */
  method Post(db: Store, current: Option<User>, promptId: Id, text: string, video: Option<string>)
    returns (code: int, body: Result<Id>)
    requires db.Valid()
    modifies db
    ensures db.Valid()
    ensures var t := old(db.data);
      if current.None? then code == ServerError500 && body == Err(FailedToSubmit) && db.data == t
      else if !NoResponse(t, promptId, current.value.id) then
        && code == Ok200 && body.Ok? && body.value in t.responses
        && PairOf(t.responses[body.value]) == (promptId, current.value.id)
        && db.data == ReviseResponse(t, body.value, text, video)
      else if promptId !in t.prompts then code == ServerError500 && body == Err(FailedToSubmit) && db.data == t
      else code == Created201 && body == Ok(NextId(t))
           && db.data == AfterRouteCreate(t, promptId, current.value.id, text, video)
  {
    var auth := RequireAuth(current);
    if auth.Err? {
      return ServerError500, Err(FailedToSubmit);
    }
    var userId := auth.value.id;
    var existing := db.FindResponse(promptId, userId);
    if existing.Some? {
      db.UpdateResponse(existing.value, text, video);
      return Ok200, Ok(existing.value);
    }
    if promptId !in db.data.prompts {
      // The insert violates the response's foreign key to its prompt.
      return ServerError500, Err(FailedToSubmit);
    }
    var prompt := db.data.prompts[promptId];
    var memberCount := MemberCount(db.data, prompt.teamId);
    var id := db.InsertResponse(promptId, userId, text, video);
    if ResponseCount(db.data, promptId) == memberCount {
      db.SetStatus(promptId, Complete);
    }
    return Created201, Ok(id);
  }
}
