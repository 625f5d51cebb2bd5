/** components/team-member-dashboard.tsx: a team member's task cards. A card is pending or
    submitted; the board filters by title search and by that status, colours the time-left text,
    and links a pending task to the submission form and any other to the submission view. */
module TeamMemberDashboard {
  import opened Seqs
  import opened Text

  datatype TaskCard = TaskCard(id: int, title: string, status: string, timeLeft: string)

  /** `matchesStatus`. */
  predicate MatchesStatus(statusFilter: string, status: string) {
    || statusFilter == "All"
    || (statusFilter == "Pending" && status == "pending")
    || (statusFilter == "Submitted" && status == "submitted")
  }

  predicate Keeps(search: string, statusFilter: string, p: TaskCard) {
    MatchesSearch(p.title, search) && MatchesStatus(statusFilter, p.status)
  }

  /** `filteredPrompts`: the cards that match the search and the status filter, in order. "All"
      lets every status through; "Pending" and "Submitted" keep only their own. */
  function FilteredTasks(cards: seq<TaskCard>, search: string, statusFilter: string): (r: seq<TaskCard>)
    ensures forall p :: p in r <==> p in cards && MatchesSearch(p.title, search) && MatchesStatus(statusFilter, p.status)
    ensures statusFilter == "Pending" ==> forall p :: p in r ==> p.status == "pending"
    ensures statusFilter == "Submitted" ==> forall p :: p in r ==> p.status == "submitted"
    ensures Subsequence(r, cards)
  {
    FilterIsSubsequence(cards, p => Keeps(search, statusFilter, p));
    Filter(cards, p => Keeps(search, statusFilter, p))
  }

  /** With "All" and an empty search every card is shown. */
  lemma UnfilteredShowsAll(cards: seq<TaskCard>)
    ensures FilteredTasks(cards, "", "All") == cards
  {
    forall p | p in cards ensures Keeps("", "All", p) {
      EmptySearchMatches(p.title);
    }
    FilterKeepsAll(cards, p => Keeps("", "All", p));
  }

  datatype Colour = Red | Yellow | Gray

  /** `getTimeLeftColor`: red for an overdue task (checked first), yellow for one due today,
      gray otherwise. */
  function TimeLeftColour(timeLeft: string): (r: Colour)
    ensures r == Red <==> Contains(timeLeft, "Overdue")
    ensures r == Yellow <==> !Contains(timeLeft, "Overdue") && Contains(timeLeft, "today")
    ensures r == Gray <==> !Contains(timeLeft, "Overdue") && !Contains(timeLeft, "today")
  {
    if Contains(timeLeft, "Overdue") then Red
    else if Contains(timeLeft, "today") then Yellow
    else Gray
  }

  /** The status badge's text. */
  function BadgeLabel(status: string): (r: string)
    ensures r == "Submitted" <==> status == "submitted"
    ensures r != "Submitted" ==> r == "Pending"
  {
    if status == "submitted" then "Submitted" else "Pending"
  }

  /** The card's action: the submission form of task `id`, or the view of its submission. */
  datatype Action = SubmitResponse(id: int) | ViewSubmission(id: int)

  function CardAction(p: TaskCard): (a: Action)
    ensures a.id == p.id
    ensures a.SubmitResponse? <==> p.status == "pending"
  {
    if p.status == "pending" then SubmitResponse(p.id) else ViewSubmission(p.id)
  }

  /** A card whose status is neither pending nor submitted is badged "Pending" yet offers only
      the view of a submission. */
  lemma UnknownStatusCard(p: TaskCard)
    requires p.status != "pending" && p.status != "submitted"
    ensures BadgeLabel(p.status) == "Pending" && CardAction(p).ViewSubmission?
  {
  }
}
