/** components/response-view-page.tsx: the responses to one prompt, by team member. A tab
    narrows the members to those who responded or those still pending, and each member has a
    feedback draft that sending clears. */
module ResponseViewPage {
  import opened Seqs
  import opened Text

  datatype Member = Member(id: int, name: string, hasResponded: bool)

  /** Whether the tab `activeTab` shows `member`; an unknown tab shows everyone. */
  predicate OnTab(activeTab: string, member: Member) {
    if activeTab == "all" then true
    else if activeTab == "responded" then member.hasResponded
    else if activeTab == "pending" then !member.hasResponded
    else true
  }

  /** `filteredMembers`: the members the tab shows, in their order. */
  function FilteredMembers(members: seq<Member>, activeTab: string): (r: seq<Member>)
    ensures activeTab != "responded" && activeTab != "pending" ==> r == members
    ensures activeTab == "responded" ==> forall m :: m in r <==> m in members && m.hasResponded
    ensures activeTab == "pending" ==> forall m :: m in r <==> m in members && !m.hasResponded
    ensures Subsequence(r, members)
  {
    var r := Filter(members, m => OnTab(activeTab, m));
    FilterIsSubsequence(members, m => OnTab(activeTab, m));
    if activeTab != "responded" && activeTab != "pending" then
      FilterKeepsAll(members, m => OnTab(activeTab, m));
      r
    else r
  }

  /** The tab labels' counts: Responded and Pending add up to All. */
  lemma TabCounts(members: seq<Member>)
    ensures |FilteredMembers(members, "responded")| + |FilteredMembers(members, "pending")| == |FilteredMembers(members, "all")|
  {
    FilterPartition(members, m => OnTab("responded", m), m => OnTab("pending", m));
  }

  /** `feedbackText[member.id] || ""`: the draft a member's card shows. */
  function Draft(drafts: map<int, string>, memberId: int): string {
    if memberId in drafts then drafts[memberId] else ""
  }

  /** `onFeedbackChange`: the member's draft becomes the typed text. */
  function EditDraft(drafts: map<int, string>, memberId: int, text: string): (r: map<int, string>)
    ensures Draft(r, memberId) == text
    ensures forall id :: id != memberId ==> Draft(r, id) == Draft(drafts, id)
  {
    drafts[memberId := text]
  }

  /** `handleSendFeedback`: the member's draft is cleared; every other draft stays. */
  function SendFeedback(drafts: map<int, string>, memberId: int): (r: map<int, string>)
    ensures r.Keys == drafts.Keys + {memberId} && r[memberId] == ""
    ensures forall id :: id in drafts && id != memberId ==> r[id] == drafts[id]
  {
    drafts[memberId := ""]
  }

  /** The Send Feedback button is disabled when the draft is empty or only white space. */
  function SendDisabled(draft: string): (r: bool)
    ensures r <==> AllSpace(draft)
  {
    Trim(draft) == ""
  }

  /** After sending, the member's card shows an empty draft and cannot send again until
      something is typed. */
  lemma SentDraftBlocked(drafts: map<int, string>, memberId: int)
    ensures Draft(SendFeedback(drafts, memberId), memberId) == ""
    ensures SendDisabled(Draft(SendFeedback(drafts, memberId), memberId))
  {
  }
}
