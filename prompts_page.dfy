/** components/prompts-page.tsx: the prompt board. The cards shown are the prompts whose title
    contains the search term, ignoring case, and that pass the project, ceremony, team and
    status selectors; each selector has an "All …" option that lets every prompt through. */
module PromptsPage {
  import opened Results
  import opened Seqs
  import opened Text

  /** A card's data, with `status` one of the board's status codes. */
  datatype PromptCard = PromptCard(id: int, title: string, status: string, project: string,
                                   ceremonyType: string, team: string)

  const AllProjects := "All Projects"
  const AllCeremonies := "All Ceremonies"
  const AllTeams := "All Teams"
  const AllStatuses := "All Statuses"

  /** The search term and the four selectors. */
  datatype Filters = Filters(search: string, project: string, ceremony: string, team: string, status: string)

  /** `clearFilters`. */
  const Cleared := Filters("", AllProjects, AllCeremonies, AllTeams, AllStatuses)

  /** The status code a status selector option stands for. */
  function CodeOfLabel(choice: string): (r: Option<string>)
    ensures r.Some? <==> choice in {"In Progress", "Near Deadline", "Overdue", "Complete"}
  {
    if choice == "In Progress" then Some("in-progress")
    else if choice == "Near Deadline" then Some("near-deadline")
    else if choice == "Overdue" then Some("overdue")
    else if choice == "Complete" then Some("complete")
    else None
  }

  /** The four options stand for four different codes. */
  lemma LabelsOneToOne(a: string, b: string)
    requires CodeOfLabel(a).Some? && CodeOfLabel(a) == CodeOfLabel(b)
    ensures a == b
  {
  }

  /** `matchesStatus`. */
  predicate MatchesStatus(choice: string, status: string) {
    || choice == AllStatuses
    || (choice == "In Progress" && status == "in-progress")
    || (choice == "Near Deadline" && status == "near-deadline")
    || (choice == "Overdue" && status == "overdue")
    || (choice == "Complete" && status == "complete")
  }

  /** An option other than the four and the sentinel selects nothing; the sentinel selects all. */
  lemma StatusSelector(choice: string, status: string)
    ensures MatchesStatus(choice, status) <==> choice == AllStatuses || CodeOfLabel(choice) == Some(status)
  {
  }

  /** The five conditions of the board's filter. */
  predicate Keeps(f: Filters, p: PromptCard) {
    && MatchesSearch(p.title, f.search)
    && (f.project == AllProjects || p.project == f.project)
    && (f.ceremony == AllCeremonies || p.ceremonyType == f.ceremony)
    && (f.team == AllTeams || p.team == f.team)
    && MatchesStatus(f.status, p.status)
  }

  /** `filteredPrompts`: the cards that pass, in the data's order. */
  function FilteredPrompts(data: seq<PromptCard>, f: Filters): (r: seq<PromptCard>)
    ensures forall p :: p in r <==> p in data && Keeps(f, p)
    ensures Subsequence(r, data)
  {
    FilterIsSubsequence(data, p => Keeps(f, p));
    Filter(data, p => Keeps(f, p))
  }

  /** With every selector at its "All …" option, only the search narrows the board. */
  lemma SentinelsAcceptAll(data: seq<PromptCard>, search: string)
    ensures FilteredPrompts(data, Filters(search, AllProjects, AllCeremonies, AllTeams, AllStatuses))
            == Filter(data, (p: PromptCard) => MatchesSearch(p.title, search))
  {
    var f := Filters(search, AllProjects, AllCeremonies, AllTeams, AllStatuses);
    FilterAgrees(data, p => Keeps(f, p), (p: PromptCard) => MatchesSearch(p.title, search));
  }

  /** After `clearFilters` the board shows every card. */
  lemma ClearedShowsAll(data: seq<PromptCard>)
    ensures FilteredPrompts(data, Cleared) == data
  {
    forall p | p in data ensures Keeps(Cleared, p) {
      EmptySearchMatches(p.title);
    }
    FilterKeepsAll(data, p => Keeps(Cleared, p));
  }

  /** The status badge's text. */
  function BadgeLabel(status: string): (r: string)
    ensures r == "Complete" <==> status == "complete"
    ensures r == "In Progress" <==> status == "in-progress"
    ensures r == "Due Soon" <==> status == "near-deadline"
    ensures status !in {"complete", "in-progress", "near-deadline"} ==> r == "Overdue"
  {
    if status == "complete" then "Complete"
    else if status == "in-progress" then "In Progress"
    else if status == "near-deadline" then "Due Soon"
    else "Overdue"
  }
}
