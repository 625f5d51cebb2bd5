/** components/assign-team-modal.tsx: the team checklist of the assignment dialog. The selection
    starts as the teams the sample data marks as assigned, and each checkbox toggles its team. */
module AssignTeamModal {
  import opened Seqs

  datatype TeamOption = TeamOption(id: int, name: string, members: nat, isAssigned: bool)

  /** The dialog's sample teams. */
  const TeamsData: seq<TeamOption> := [
    TeamOption(1, "Team Alpha", 5, true),
    TeamOption(2, "Team Beta", 4, true),
    TeamOption(3, "Team Gamma", 3, false),
    TeamOption(4, "Team Delta", 6, false),
    TeamOption(5, "Team Epsilon", 4, true),
    TeamOption(6, "Team Zeta", 3, false)
  ]

  /** `data.filter(team => team.isAssigned).map(team => team.id)`: the ids of the assigned teams,
      in the order of `data`. */
  function InitialSelection(data: seq<TeamOption>): (r: seq<int>)
    ensures forall id :: id in r <==> exists team :: team in data && team.isAssigned && team.id == id
    ensures |r| <= |data|
    decreases |data|
  {
    if data == [] then []
    else
      var rest := InitialSelection(data[1..]);
      assert forall team :: team in data <==> team == data[0] || team in data[1..];
      (if data[0].isAssigned then [data[0].id] else []) + rest
  }

  predicate IsAssigned(team: TeamOption) {
    team.isAssigned
  }

  /** The selection is the assigned teams of `data`, kept in the order of `data` by `filter`,
      each mapped to its id: one id per assigned team, repeats included. */
  lemma {:induction false} InitialSelectionFilters(data: seq<TeamOption>)
    ensures |InitialSelection(data)| == |Filter(data, IsAssigned)|
    ensures forall i :: 0 <= i < |InitialSelection(data)| ==> InitialSelection(data)[i] == Filter(data, IsAssigned)[i].id
    decreases |data|
  {
    if data != [] {
      InitialSelectionFilters(data[1..]);
      var rest := InitialSelection(data[1..]);
      var kept := Filter(data[1..], IsAssigned);
      assert Filter(data, IsAssigned) == (if data[0].isAssigned then [data[0]] else []) + kept;
      assert InitialSelection(data) == (if data[0].isAssigned then [data[0].id] else []) + rest;
    }
  }

  /** The dialog opens with teams 1, 2 and 5 checked. */
  lemma SampleSelection()
    ensures InitialSelection(TeamsData) == [1, 2, 5]
  {
  }

  /** `handleTeamToggle`: a selected id is removed, every occurrence of it; any other id is
      appended at the end. */
  function Toggle(selected: seq<int>, teamId: int): (r: seq<int>)
    ensures teamId in selected ==> teamId !in r && Subsequence(r, selected)
    ensures teamId !in selected ==> r == selected + [teamId]
    ensures forall id :: id != teamId ==> (id in r <==> id in selected)
  {
    if teamId in selected then
      FilterIsSubsequence(selected, id => id != teamId);
      Filter(selected, id => id != teamId)
    else selected + [teamId]
  }

  /** Toggling twice restores the selection: exactly, when the id was not selected, and as a set
      of ids when it was (it then comes back at the end). */
  lemma {:induction false} ToggleTwice(selected: seq<int>, teamId: int)
    ensures forall id :: id in Toggle(Toggle(selected, teamId), teamId) <==> id in selected
    ensures teamId !in selected ==> Toggle(Toggle(selected, teamId), teamId) == selected
  {
    if teamId !in selected {
      FilterConcat(selected, [teamId], id => id != teamId);
      FilterKeepsAll(selected, id => id != teamId);
      assert Filter([teamId], id => id != teamId) == [];
    }
  }

  /** A duplicate-free selection stays duplicate-free. */
  lemma ToggleNoDup(selected: seq<int>, teamId: int)
    requires NoDup(selected)
    ensures NoDup(Toggle(selected, teamId))
  {
    if teamId in selected {
      FilterNoDup(selected, id => id != teamId);
    }
  }
}
