# AsyncScrum application logic in Dafny

AsyncScrum is a web application for asynchronous Scrum ceremonies:
- A Scrum Master posts prompts (stand-ups, retrospectives, …) to a team.
- The team members respond with text or video; a prompt moves from PENDING through IN_PROGRESS to COMPLETE as its team answers.
- The Scrum Master reviews the responses and sends feedback.
- Projects group teams, and ceremonies name the kinds of prompt.

This project models the application logic that sits between the pages and the database:
- the server actions (`actions/*.ts`);
- the list and create routes for prompts, projects, teams and responses;
- the role checks of `lib/auth.ts`;
- the pure logic of the client components: list filters, the team selection toggle, the responded/pending tabs, the form validators and the simulated upload counter.

**The store.** The database is the class `Store.Store`. It has one field of type `Tables`, a value with one map per table, the two unique indexes (user by e-mail; response by prompt and user) and the ordered list of project–team links.
- Its invariant `Valid()` holds the foreign keys, the unique indexes and the freshness of issued ids.
- Every write is a pure transition on `Tables`, with a lemma that the transition keeps the invariant.
- Every action and route is a method on a `Store`. Its postcondition gives the result and the new state for every branch of the source: role failure, missing field, missing row, success. It then ties that state to the transition functions; lemmas beside each action say what those transitions do.
- A failing database call becomes the action's generic failure; the store is left unchanged.

**Routes.** The `GET` routes build their `where` object field by field, as the source does. That method is proved to admit exactly the rows a declarative `Listed` predicate describes. A separate `Select` method orders the matches newest first and formats them. The route's postcondition states:
- when it answers 500;
- that each row is the formatted entry of a stored row;
- that the ids form the same multiset as the listed set (each listed row exactly once);
- that the rows are sorted newest first.

**Client components.** The components' pure logic is modelled as functions and lemmas. Their forms are classes whose methods update the fields in the same order the handlers do.

## Model

| member | source | states |
|---|---|---|
| Auth.CurrentUser | lib/auth.ts:5-23 | no session token gives no user; with a token the user is the store's first user (a parameter) |
| Auth.RequireAuth | lib/auth.ts:25-33 | fails, with "Authentication required", exactly when there is no user; otherwise returns that user |
| Auth.RequireRole | lib/auth.ts:35-43 | succeeds exactly when a user exists whose role is the given role or ADMIN; returns the user `requireAuth` produced; "Unauthorized" for any other role |
| Auth.RoleChecks | lib/auth.ts:38 | ADMIN passes every role check; TEAM_MEMBER fails the SCRUM_MASTER and ADMIN checks; SCRUM_MASTER fails the ADMIN check |
| Store.Store.FindUserByEmail | actions/team-actions.ts:63-65 | finds the user with exactly that e-mail, and none exactly when no user has it |
| Store.Store.FindResponse | actions/prompt-actions.ts:124-131 | finds the one response of the (prompt, user) pair, and none exactly when there is none |
| Store.Store.FindCeremonyByName | actions/prompt-actions.ts:47-51 | some ceremony carrying the name, and none exactly when no ceremony has it |
| Store.OneResponsePerPair | app/api/responses/route.ts:11-44 | in a store that keeps its invariant, which every write preserves, two responses of the same (prompt, user) pair are the same response |
| Store.AddResponseCount | actions/prompt-actions.ts:149-171 | inserting a response adds one to the response count of its own prompt and none to any other |
| Store.ReviseResponseCount | actions/prompt-actions.ts:137-146 | rewriting a response changes no prompt's response count |
| PromptActions.OrNull | actions/prompt-actions.ts:17 | an empty optional field is stored as absent, any other as given |
| PromptActions.NewPrompt | actions/prompt-actions.ts:76-88 | the created row is PENDING, has the caller as creator, the given project, team and ceremony, and no video exactly when the field was empty |
| PromptActions.CreatePrompt | actions/prompt-actions.ts:7-105 | checks in order role, the six required fields, "Team not found", "Ceremony type not found", "Team is not associated with any project"; every failure leaves the store unchanged; success adds one PENDING prompt of the caller, in the project of the team's first link and a ceremony with the requested name |
| PromptActions.StatusAfterSubmit | actions/prompt-actions.ts:171-188 | after a first response the status is COMPLETE exactly when responses equal members (or it already was), IN_PROGRESS otherwise; it never goes back and is never PENDING afterwards |
| PromptActions.SubmissionsTrace | actions/prompt-actions.ts:158-188 | with a team of N, after K first responses the prompt is PENDING for K = 0, IN_PROGRESS for 0 < K < N and COMPLETE for K = N |
| PromptActions.FirstResponseShape | actions/prompt-actions.ts:147-188 | each branch of the status update leaves exactly the status `StatusAfterSubmit` gives, writing it or keeping it |
| PromptActions.FirstResponseAdds | actions/prompt-actions.ts:149-156 | a first response adds exactly one response row, stamped with the clock, and one to the prompt's response count |
| PromptActions.FirstResponseStatus | actions/prompt-actions.ts:158-188 | a first response changes only its own prompt, and that one only in its status, which moves forward and is not PENDING |
| PromptActions.FirstResponseFrame | actions/prompt-actions.ts:147-188 | a first response leaves users, teams, memberships, projects, links, ceremonies and feedback unchanged |
| PromptActions.ResubmissionEffect | actions/prompt-actions.ts:135-146 | a resubmission rewrites the text, the video and the submission time of that one response; the (prompt, user) pair, every other response, every prompt and every response count stay |
| PromptActions.SubmitResponse | actions/prompt-actions.ts:107-206 | no user: failure; empty prompt id or neither text nor video: "Response content is required"; an existing response is rewritten; otherwise a missing prompt fails and an existing one gets its first response from the caller, unchanged store on failure |
| PromptActions.SubmitAs | actions/prompt-actions.ts:123-189 | the upsert for one user: rewrite the user's response to the prompt if there is one, else record a first response or fail on a missing prompt |
| PromptActions.RecordFirstResponse | actions/prompt-actions.ts:147-188 | the insert-then-status branch leaves exactly `AfterFirstResponse` of the old store and answers with the new id |
| PromptActions.SendFeedback | actions/prompt-actions.ts:208-245 | role check; empty response id or text: "Feedback text is required"; a missing response fails; otherwise one feedback row authored by the caller; unchanged store on failure |
| PromptActions.FeedbackEffect | actions/prompt-actions.ts:223-229 | the feedback row gets a fresh id, the feedback table grows by exactly one, responses and prompts stay |
| ResponsesRoute.RouteStatus | app/api/responses/route.ts:59-66 | after a first response the status is COMPLETE exactly when responses equal members (or it already was); otherwise it is unchanged; it never moves back |
| ResponsesRoute.RouteCreateShape | app/api/responses/route.ts:37-66 | each branch of the route's status update leaves exactly the status `RouteStatus` gives |
| ResponsesRoute.RouteCreateEffect | app/api/responses/route.ts:37-66 | a first response adds one response row and one to the count, changes only its prompt's status, and never makes a prompt IN_PROGRESS |
| ResponsesRoute.ActionAndRouteDiffer | app/api/responses/route.ts:59-66 | on a PENDING prompt answered by some but not all members the action makes it IN_PROGRESS while the route leaves it PENDING; in every other case both leave the same store |
| ResponsesRoute.Post | app/api/responses/route.ts:5-74 | no user: 500; an existing response of the caller is rewritten with 200; otherwise a missing prompt gives 500 with no change, and an existing one a new response with 201 and the route's status rule |
| TeamActions.CreateTeam | actions/team-actions.ts:7-44 | role failure, then "All fields are required" for an empty name or description, both leaving the store unchanged; otherwise one new team created by the caller |
| TeamActions.CreatedTeam | actions/team-actions.ts:22-28 | the new team has a fresh id, the given fields and the caller as creator; no other team changes |
| TeamActions.InviteKnownEmail | actions/team-actions.ts:63-67 | for a known e-mail (exact match) the invitation goes to that user and creates no user |
| TeamActions.InviteUnknownEmail | actions/team-actions.ts:63-77 | for an unknown e-mail exactly one user is created: TEAM_MEMBER, no password, named by the text before the first "@" |
| TeamActions.InviteKeepsCreatedUser | actions/team-actions.ts:67-103 | with no transaction, inviting an unknown e-mail to a missing team fails yet keeps the account it created |
| TeamActions.InviteTwice | actions/team-actions.ts:80-103 | inviting the same e-mail to the same team a second time changes nothing and fails, with "already a member" when the first call succeeded |
| TeamActions.ResolveInvitee | actions/team-actions.ts:63-77 | the `let user` lookup-or-create leaves exactly the store and user `Invitee` describes |
| TeamActions.InviteUserToTeam | actions/team-actions.ts:46-120 | role failure, then "All fields are required" for an empty team id, e-mail or role, both unchanged; otherwise lookup-or-create, a refused duplicate membership, or one membership with the given role label |
| TeamActions.JoinTeam | actions/team-actions.ts:80-103 | an existing membership gives "User is already a member of this team" and a missing team the generic failure, both unchanged; otherwise one membership with the role label |
| ProjectActions.CreateProject | actions/project-actions.ts:7-51 | role failure; "All fields are required" for any empty field; a status that upper-cased names no project status fails; otherwise one project with the upper-cased status, progress 0 and the caller as creator |
| ProjectActions.CreatedProject | actions/project-actions.ts:25-35 | the new project has a fresh id, the upper-cased status, progress 0 and the caller as creator |
| ProjectActions.StatusCaseInsensitive | actions/project-actions.ts:29 | the status is accepted in any letter case |
| ProjectActions.CurrentTeamIds | actions/project-actions.ts:69-76 | the ids listed are exactly the teams linked to the project |
| ProjectActions.Without | actions/project-actions.ts:79-82 | the `filter` behind `teamsToAdd` (requested ids not linked) and `teamsToRemove` (linked ids not requested): exactly the ids outside the excluded list, in the original order, each as often as the original holds it, so a team requested twice is created twice |
| ProjectActions.Kept | actions/project-actions.ts:87-94 | the `deleteMany` keeps exactly the links that are not of this project to a team to remove, in order |
| ProjectActions.Created | actions/project-actions.ts:97-104 | one new link of the project per team to add, in order |
| ProjectActions.PlanAssignment | actions/project-actions.ts:85-105 | the transaction's creates run one by one; the plan succeeds exactly when every create can succeed (the team exists, the project exists, no create repeats one or a surviving link), and then gives the surviving links followed by the new ones |
| ProjectActions.ReassignedLinksStored | actions/project-actions.ts:85-105 | a transaction that can commit leaves only links between stored projects and teams |
| ProjectActions.RunAssignment | actions/project-actions.ts:85-105 | all or nothing: it commits and installs the new links exactly when every create can succeed, and otherwise changes nothing |
| ProjectActions.AssignTeamToProject | actions/project-actions.ts:53-121 | role failure; "Project ID and at least one team are required"; otherwise the diff of requested and linked teams applied in one transaction, or the generic failure with no change |
| ProjectActions.AssignedTeamsAreRequested | actions/project-actions.ts:79-105 | after the assignment a team is linked to the project exactly when it was requested |
| ProjectActions.AssignmentKeepsLinks | actions/project-actions.ts:79-82 | a requested team that is linked already is neither deleted nor created again |
| ProjectActions.AssignmentLeavesOtherProjects | actions/project-actions.ts:87-104 | the links of every other project stay as they were, in their order |
| ProjectActions.AssignmentCommits | actions/project-actions.ts:85-105 | with an existing project and duplicate-free requested teams that all exist, the transaction commits |
| CeremonyActions.CreateCeremony | actions/ceremony-actions.ts:7-50 | role failure; "All fields are required" when any of the five fields is empty; otherwise one ceremony created by the caller |
| CeremonyActions.Edited | actions/ceremony-actions.ts:71-80 | the update replaces the five editable fields and keeps the creator |
| CeremonyActions.UpdateCeremony | actions/ceremony-actions.ts:52-97 | role failure; the id is required too; a missing ceremony fails; otherwise only that ceremony's five fields are rewritten |
| CeremonyActions.UpdateTouchesOne | actions/ceremony-actions.ts:71-80 | an update changes that one ceremony only, and no prompt |
| CeremonyActions.NoPromptUses | actions/ceremony-actions.ts:106-112 | the prompt count of a ceremony is zero exactly when no prompt references it |
| CeremonyActions.DeleteCeremony | actions/ceremony-actions.ts:99-136 | role failure; "Cannot delete ceremony with associated prompts" while any prompt uses it, with no change; a missing ceremony fails; otherwise that ceremony is removed |
| CeremonyActions.DeleteRemovesOne | actions/ceremony-actions.ts:119-121 | the delete removes exactly that ceremony; every other ceremony and every prompt stays |
| UserActions.FullName | actions/user-actions.ts:27 | the name is the first name, one space, and the last name |
| UserActions.UpdateProfile | actions/user-actions.ts:7-46 | no user: failure; "Name fields are required" for an empty first or last name; otherwise the user's name becomes the full name, its password kept |
| UserActions.UpdatePassword | actions/user-actions.ts:48-92 | "All password fields are required", then "New passwords do not match" with the password unchanged; otherwise the stored password is the new one; the current password is not checked |
| UserActions.UserRowRewrite | actions/user-actions.ts:24-29 | rewriting a user keeps its id, e-mail and role, every other user, the e-mail index and the memberships |
| UserActions.UpdateNotificationSettings | actions/user-actions.ts:94-114 | succeeds exactly for a signed-in user; it takes no store, so it changes none |
| PromptsRoute.BuildWhere | app/api/prompts/route.ts:16-44 | every present parameter adds one equality, the status upper-cased, and a TEAM_MEMBER is limited to its teams' prompts: the clause admits a prompt exactly when `Listed` does; the store refuses it exactly when the upper-cased status names no prompt status |
| PromptsRoute.DisplayStatus | app/api/prompts/route.ts:97-99 | the displayed status has the code's length and no capital letter, and differs from the lower-cased code only for in_progress and near_deadline |
| PromptsRoute.ShowStatus | app/api/prompts/route.ts:97-99 | the `let status` reassignments compute `DisplayStatus` |
| PromptsRoute.DisplayedStatuses | app/api/prompts/route.ts:97-99 | PENDING, IN_PROGRESS and COMPLETE show as pending, in-progress and complete, and different statuses show differently |
| PromptsRoute.Entry | app/api/prompts/route.ts:94-126 | the entry carries the prompt's fields, its response count, its team's member count, its display status and the names of its project, ceremony and team |
| PromptsRoute.Select | app/api/prompts/route.ts:46-128 | every row is the entry of an admitted prompt, each admitted prompt appears once, newest first |
| PromptsRoute.Get | app/api/prompts/route.ts:5-135 | 500 exactly when there is no user or the status names no prompt status; otherwise 200 with the entries of exactly the `Listed` prompts, each once (no id twice), newest first |
| PromptsRoute.Post | app/api/prompts/route.ts:137-168 | role failure or a missing project, team or ceremony: 500 with no change; otherwise 201 with one PENDING prompt created by the caller |
| ProjectsRoute.BuildWhereAsWritten | app/api/projects/route.ts:14-32 | as written: a non-empty status always becomes the condition, verbatim, and a TEAM_MEMBER always gets the membership condition; the clause admits exactly the `ListedAsWritten` projects (status equal to the stored code as given); the store refuses it exactly when the text as given names no project status |
| ProjectsRoute.GetAsWritten | app/api/projects/route.ts:5-91 | as written: 500 exactly when there is no user or the status as given names no project status, hence for every status in the lower-case form the list shows; otherwise 200 with exactly the `ListedAsWritten` projects, each once (no id twice), newest first |
| ProjectsRoute.ShownStatusRefused | app/api/projects/route.ts:15-17 | every status in the lower-case form the list shows is refused by the verbatim clause |
| ProjectsRoute.BuildWhere | app/api/projects/route.ts:14-32 | corrected, with the status upper-cased: the clause admits a project exactly when `Listed` does (status in any case; for a TEAM_MEMBER a linked team it belongs to); refused exactly when the upper-cased status names no project status |
| ProjectsRoute.SharesTeamViaLinks | app/api/projects/route.ts:21-31 | the `some` over the link table agrees with "some link of the project goes to a team of the user" |
| ProjectsRoute.ShownStatusAccepted | app/api/projects/route.ts:75 | with the upper-casing, each status as the list shows it selects exactly that status |
| ProjectsRoute.Entry | app/api/projects/route.ts:71-84 | the entry carries the project's fields, the status lower-cased, the team count equal to the number of links, the team names in link order, and the prompt count |
| ProjectsRoute.Select | app/api/projects/route.ts:34-84 | every row is the entry of an admitted project, each admitted project appears once, newest first |
| ProjectsRoute.Get | app/api/projects/route.ts:5-91 | with the corrected clause: 500 exactly when there is no user or the upper-cased status names no project status; otherwise 200 with exactly the `Listed` projects, each once (no id twice), newest first |
| ProjectsRoute.Post | app/api/projects/route.ts:93-117 | role failure or a status that upper-cased names no project status: 500 with no change; otherwise 201 with one project of progress 0 created by the caller |
| TeamsRoute.BuildWhere | app/api/teams/route.ts:9-19 | a TEAM_MEMBER is admitted only to the teams it belongs to, every other role to every team |
| TeamsRoute.MemberOf | app/api/teams/route.ts:65-70 | a member entry has the user's id and name and the membership's role label, not the account role |
| TeamsRoute.Members | app/api/teams/route.ts:65-70 | one entry for each membership of the team, and no other |
| TeamsRoute.MembersCounted | app/api/teams/route.ts:65-70 | the list shows as many members as the team has memberships |
| TeamsRoute.Entry | app/api/teams/route.ts:61-74 | the entry carries the team's fields, its members, and its linked projects' names in link order |
| TeamsRoute.Select | app/api/teams/route.ts:21-74 | every row is the entry of an admitted team, each admitted team appears once, newest first |
| TeamsRoute.Get | app/api/teams/route.ts:5-81 | 500 exactly when there is no user; otherwise 200 with exactly the visible teams, each once (no id twice), newest first |
| TeamsRoute.Post | app/api/teams/route.ts:83-103 | role failure: 500 with no change; otherwise 201 with one team created by the caller |
| Ordering.NewestFirstOf | app/api/prompts/route.ts:85-87 | `orderBy: { createdAt: "desc" }`: the result holds exactly the given rows, sorted newest first |
| Ordering.EachOnce | app/api/prompts/route.ts:46-88 | a sequence with the multiset of a set lists each element of the set exactly once: no element twice, and as many entries as the set has elements; each `GET` uses it to show that no row appears twice |
| AssignTeamModal.InitialSelection | components/assign-team-modal.tsx:34-36 | an id is selected exactly when some team marked assigned carries it |
| AssignTeamModal.InitialSelectionFilters | components/assign-team-modal.tsx:34-36 | the selection is `filter(isAssigned)` then `map(id)`: one id per assigned team, position by position, in the order of the data |
| AssignTeamModal.SampleSelection | components/assign-team-modal.tsx:24-36 | the dialog opens with teams 1, 2 and 5 selected |
| AssignTeamModal.Toggle | components/assign-team-modal.tsx:38-40 | a selected id is removed, every occurrence, keeping the rest in order; an unselected id is appended; no other id changes |
| AssignTeamModal.ToggleTwice | components/assign-team-modal.tsx:39 | toggling twice restores which ids are selected, and restores the list exactly when the id was not selected |
| AssignTeamModal.ToggleNoDup | components/assign-team-modal.tsx:39 | a duplicate-free selection stays duplicate-free |
| ResponseViewPage.FilteredMembers | components/response-view-page.tsx:94-99 | "responded" keeps exactly the members who responded, "pending" exactly the others, any other tab everyone; order is kept |
| ResponseViewPage.TabCounts | components/response-view-page.tsx:163-167 | the Responded and Pending counts add up to the All count |
| ResponseViewPage.EditDraft | components/response-view-page.tsx:178 | the member's draft becomes the typed text; every other draft stays |
| ResponseViewPage.SendFeedback | components/response-view-page.tsx:106-113 | the member's draft is cleared; every other draft stays |
| ResponseViewPage.SendDisabled | components/response-view-page.tsx:320 | the button is disabled exactly when the draft is empty or white space only |
| ResponseViewPage.SentDraftBlocked | components/response-view-page.tsx:106-113 | after sending, the card shows an empty draft and cannot send again |
| PromptsPage.CodeOfLabel | components/prompts-page.tsx:116-121 | exactly the four status options stand for a status code |
| PromptsPage.LabelsOneToOne | components/prompts-page.tsx:116-121 | the four options stand for four different codes |
| PromptsPage.StatusSelector | components/prompts-page.tsx:116-121 | the status condition holds exactly for "All Statuses" or the option standing for the card's code |
| PromptsPage.FilteredPrompts | components/prompts-page.tsx:111-124 | a card is kept exactly when the search and the four selectors all accept it; the result keeps the data's order |
| PromptsPage.SentinelsAcceptAll | components/prompts-page.tsx:113-121 | with every selector at its "All …" option only the search narrows the board |
| PromptsPage.ClearedShowsAll | components/prompts-page.tsx:158-164 | after `clearFilters` every card is shown |
| PromptsPage.BadgeLabel | components/prompts-page.tsx:277-283 | complete, in-progress and near-deadline read "Complete", "In Progress" and "Due Soon"; every other status reads "Overdue" |
| TeamMemberDashboard.FilteredTasks | components/team-member-dashboard.tsx:57-65 | a card is kept exactly when it matches the search and the status filter; "Pending" and "Submitted" keep only their own status; order is kept |
| TeamMemberDashboard.UnfilteredShowsAll | components/team-member-dashboard.tsx:57-65 | with "All" and an empty search every card is shown |
| TeamMemberDashboard.TimeLeftColour | components/team-member-dashboard.tsx:80-84 | red exactly when the text contains "Overdue"; otherwise yellow exactly when it contains "today"; gray otherwise |
| TeamMemberDashboard.BadgeLabel | components/team-member-dashboard.tsx:138 | "Submitted" exactly for a submitted card, "Pending" for every other |
| TeamMemberDashboard.CardAction | components/team-member-dashboard.tsx:162-170 | a pending card links to the submission form, any other to the submission view, for the card's own id |
| TeamMemberDashboard.UnknownStatusCard | components/team-member-dashboard.tsx:138-170 | a card whose status is neither pending nor submitted is badged "Pending" yet only offers the view of a submission |
| Text.EmptySearchMatches | components/prompts-page.tsx:112 | the empty search matches every title |
| Text.SearchIgnoresCase | components/prompts-page.tsx:112 | the search ignores the letter case of the title and of the term |
| Text.SearchFindsOccurrence | components/prompts-page.tsx:112 | a term that occurs in the title as written is found |
| Text.Contains | components/team-member-dashboard.tsx:81-82 | `includes`: true exactly when the text occurs at some index |
| Text.BeforeFirst | actions/team-actions.ts:71 | `split("@")[0]`: the longest prefix without an "@", followed by the "@" when it is shorter than the text |
| Text.Trim | components/response-view-page.tsx:320 | `trim()` is empty exactly when the text is white space only |
| Text.IsEmailShaped | components/invite-user-modal.tsx:33 | the regular expression `\S+@\S+\.\S+` matches somewhere: a non-space, "@", one or more non-spaces, ".", a non-space |
| InviteUserModal.InviteErrors | components/invite-user-modal.tsx:30-35 | an e-mail error exactly for an empty ("Email is required") or badly shaped ("Email is invalid") e-mail, a role error ("Role is required") exactly for an empty role, nothing else |
| InviteUserModal.ValidInvitation | components/invite-user-modal.tsx:30-37 | no errors exactly when the e-mail is address-shaped and a role is chosen; the e-mail's error does not depend on the role, nor the role's on the e-mail |
| InviteUserModal.InviteForm.constructor | components/invite-user-modal.tsx:24-26 | the form starts empty, with no errors |
| InviteUserModal.InviteForm.Validate | components/invite-user-modal.tsx:30-35 | `newErrors`, filled check by check, is `InviteErrors` of the fields |
| InviteUserModal.InviteForm.ResetForm | components/invite-user-modal.tsx:54-58 | every field and every error is cleared |
| InviteUserModal.InviteForm.HandleSubmit | components/invite-user-modal.tsx:28-52 | with errors they are shown, nothing is submitted and the fields are kept; otherwise the invitation is handed on and every field and error is reset |
| PromptCreationModal.PromptErrors | components/prompt-creation-modal.tsx:103-110 | the error keys are exactly the empty fields among the six |
| PromptCreationModal.ValidPrompt | components/prompt-creation-modal.tsx:103-112 | no errors exactly when none of the six fields is empty |
| PromptCreationModal.ProgressFromZero | components/prompt-creation-modal.tsx:89-98 | from 0, the progress after n ticks is 10·n up to the tenth tick and 100 afterwards, always within 0..100 |
| PromptCreationModal.UploadStopsOnEleventhTick | components/prompt-creation-modal.tsx:89-98 | progress has reached 100 exactly from the tenth tick on, so the eleventh tick stops the upload |
| PromptCreationModal.PromptForm.constructor | components/prompt-creation-modal.tsx:42-51 | the form starts blank: empty fields, no file, progress 0, not uploading, no errors |
| PromptCreationModal.PromptForm.ResetForm | components/prompt-creation-modal.tsx:133-144 | the form becomes blank |
| PromptCreationModal.PromptForm.Validate | components/prompt-creation-modal.tsx:103-110 | `newErrors`, filled check by check, is `PromptErrors` of the fields |
| PromptCreationModal.PromptForm.HandleSubmit | components/prompt-creation-modal.tsx:101-131 | with errors they are shown, the dialog stays open and nothing else changes; otherwise the form is reset and closed |
| PromptCreationModal.PromptForm.FileUpload | components/prompt-creation-modal.tsx:81-88 | the file is kept, errors are cleared, the upload starts at 0; the text fields stay |
| PromptCreationModal.PromptForm.ReceiveFiles | components/prompt-creation-modal.tsx:57-79 | no file: nothing changes; a video is taken as by `FileUpload`; any other file sets only the video error and keeps the current file and upload |
| PromptCreationModal.PromptForm.Tick | components/prompt-creation-modal.tsx:89-98 | progress takes its next value (plus 10, or 100 once at 100); a tick that finds it at 100 stops the upload; nothing else changes |

## Left out

- Dates and locales are not modelled. A deadline is kept as the date and time text it is built from (`new Date`, `setHours`, actions/prompt-actions.ts:71-73, app/api/prompts/route.ts:145-147). Project dates are kept as the submitted text. The list routes' `toLocaleString` and `toISOString` formatting is not modelled; the list entries carry the stored values.
- The ceremony duration is kept as the submitted text: `Number.parseInt` (actions/ceremony-actions.ts:29, 76) and its NaN case are not modelled.
- The clock is the store's id counter. Creation and submission times are the counter value at the write, so "newest first" means "issued later".
- `getCurrentUser` returns the store's first user whenever a session cookie exists (lib/auth.ts:17). The model takes the signed-in user as a parameter, and the cookie lookup as the `sessionToken` text.
- Concurrency is not modelled: the model is single-threaded, so the read-then-write race on a prompt's status between simultaneous submissions is out of scope.
- `revalidatePath`, `console` logging and the `{ success, message }` and HTTP framing are not modelled; a result is a `Result` value, or a status code with a `Result` body.
- Form fields and query parameters: an absent value is the empty text, since both are falsy in JavaScript. A JSON body field is taken as given. A missing field that makes the route throw (`data.time.split`, `data.status.toUpperCase`) lands in the route's 500 branch and is not modelled separately.
- Upper- and lower-casing are modelled on the ASCII letters only.
- The created-by foreign keys, the feedback and response author keys, and the `createdBy` profiles in the list entries are not tracked.
- A team's member list is a set, because the store gives the members in no specified order.
- Project–team links are kept in one list in creation order, and every read of a project's or a team's links (`includes` without an `orderBy`, actions/prompt-actions.ts:31 and 68, app/api/projects/route.ts:44, app/api/teams/route.ts:44) takes them in that order. The store promises no order. So two choices are the model's: the project that `PromptActions.CreatePrompt` takes as "the team's first project", for a team linked to several projects; and the order of the team names in `ProjectsRoute.Entry` and of the project names in `TeamsRoute.Entry`.
- Cascade deletes and the `[id]` routes are not part of this model: no core file deletes a project, prompt, team or response.
- Components: the reminder button, every `console.log` submission, the colour switches, the progress-bar percentages and all markup are not modelled. The upload timer is modelled one tick at a time. Starting a second upload while one runs, and a `resetForm` that leaves a running timer, are not modelled.
- The specification says a first response always moves a PENDING prompt to IN_PROGRESS. The code does this only in `submitResponse` (actions/prompt-actions.ts:179-187); `POST /api/responses` only ever sets COMPLETE (app/api/responses/route.ts:59-66). The model follows the code, and `ResponsesRoute.ActionAndRouteDiffer` states the difference.
- The specification calls the invitation an idempotent create-or-attach. The code runs no transaction, so a user it creates stays when the membership insert then fails (actions/team-actions.ts:67-103). The model follows the code; see `TeamActions.InviteKeepsCreatedUser`.
- PromptCreationModal.PromptErrors: its contract states which fields carry an error, not the message text. The messages are fixed by its body, which `PromptForm.Validate` is proved equal to.
- The colour mappings and badges of projects-page, teams-page, ceremonies-page and scrum-master-dashboard are not modelled; their filters repeat the predicates modelled for the prompts page.

## Findings

| source | as written | input that shows it | evidently intended | confidence | as-written member | corrected member |
|---|---|---|---|---|---|---|
| app/api/projects/route.ts:15-17 | the `status` query parameter is used verbatim as an equality filter on the upper-case enum | `GET /api/projects?status=active`, the lower-case form the list itself returns (line 75) and the projects page sends (components/projects-page.tsx:56-57): "active" names no `ProjectStatus`, so the store refuses the query and the route answers 500 | upper-case the parameter first, as `POST` does at line 104 and the prompts route at app/api/prompts/route.ts:31-33 | high, not executed | ProjectsRoute.BuildWhereAsWritten, ProjectsRoute.GetAsWritten, ProjectsRoute.ShownStatusRefused | ProjectsRoute.BuildWhere, ProjectsRoute.ShownStatusAccepted (used by ProjectsRoute.Get) |
