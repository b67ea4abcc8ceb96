/** The projects page (`src/pages/ProjectsPage.tsx`): the savings total, the security-cushion
    target, the stored risk profile, and the save / delete / plan-selection handlers over the list
    of financial projects. The project record type lives in `src/types/goals.ts`, which is not
    part of this model; only the fields the page reads are kept. */
module Projects {
  import opened Wrappers
  import opened Seqs
  import opened Assets
  import opened Portfolio

  /** A financial project (`FinancialGoal`): its name stands for the fields the page never reads. */
  datatype Project = Project(id: string, name: string, targetAmount: real, currentAmount: real,
                             monthlyContribution: real)

  /** The form's payload: a project whose id may be absent (`Omit<FinancialGoal, 'id'> & { id?: string }`). */
  datatype Draft = Draft(id: Option<string>, name: string, targetAmount: real, currentAmount: real,
                         monthlyContribution: real)

  function WithId(d: Draft, id: string): Project {
    Project(id, d.name, d.targetAmount, d.currentAmount, d.monthlyContribution)
  }

  /** `calculateSavingsTotal`: the summed value of the savings-account assets. Without savings
      accounts it is zero; with nothing else it is the whole total. */
  function SavingsTotal(assets: seq<Asset>): (r: real)
    ensures (forall i :: 0 <= i < |assets| ==> assets[i].assetType != SavingsAccount) ==> r == 0.0
    ensures (forall i :: 0 <= i < |assets| ==> assets[i].assetType == SavingsAccount) ==> r == TotalValue(assets)
  {
    SavingsOnlyCases(assets);
    TotalOfType(assets, SavingsAccount)
  }

  /** The savings view is empty without savings accounts, and everything when all are. */
  lemma SavingsOnlyCases(assets: seq<Asset>)
    ensures (forall i :: 0 <= i < |assets| ==> assets[i].assetType != SavingsAccount) ==>
      OfType(assets, SavingsAccount) == []
    ensures (forall i :: 0 <= i < |assets| ==> assets[i].assetType == SavingsAccount) ==>
      OfType(assets, SavingsAccount) == assets
  {
    var keep := (a: Asset) => a.assetType == SavingsAccount;
    if forall i :: 0 <= i < |assets| ==> !keep(assets[i]) {
      FilterKeepsNone(assets, keep);
    }
    if forall i :: 0 <= i < |assets| ==> keep(assets[i]) {
      FilterKeepsAll(assets, keep);
    }
  }

  /** Only savings accounts count towards the savings total. */
  lemma SavingsTotalAppend(assets: seq<Asset>, a: Asset)
    ensures a.assetType == SavingsAccount ==> SavingsTotal(assets + [a]) == SavingsTotal(assets) + a.value
    ensures a.assetType != SavingsAccount ==> SavingsTotal(assets + [a]) == SavingsTotal(assets)
  {
    TotalOfTypeAppend(assets, a, SavingsAccount);
  }

  datatype RiskProfile = High | Medium | Low

  /** Months of expenses the cushion should cover: fewer for a higher risk appetite. */
  function RecommendedMonths(risk: RiskProfile): (r: nat)
    ensures r == 3 || r == 6 || r == 9
    ensures risk == High <==> r == 3
    ensures risk == Medium <==> r == 6
    ensures risk == Low <==> r == 9
  {
    match risk
    case High => 3
    case Medium => 6
    case Low => 9
  }

  /** The security-cushion target: monthly expenses times the recommended months. */
  function CushionTarget(monthlyExpenses: real, risk: RiskProfile): (r: real)
    ensures risk == High ==> r == 3.0 * monthlyExpenses
    ensures risk == Medium ==> r == 6.0 * monthlyExpenses
    ensures risk == Low ==> r == 9.0 * monthlyExpenses
    ensures monthlyExpenses >= 0.0 ==> 3.0 * monthlyExpenses <= r <= 9.0 * monthlyExpenses
  {
    monthlyExpenses * RecommendedMonths(risk) as real
  }

  /** A more cautious profile never asks for a smaller cushion. */
  lemma CushionGrowsWithCaution(monthlyExpenses: real)
    requires monthlyExpenses >= 0.0
    ensures CushionTarget(monthlyExpenses, High) <= CushionTarget(monthlyExpenses, Medium)
                                                 <= CushionTarget(monthlyExpenses, Low)
  {
  }

  /** The stored spelling of a profile, as written by the cushion form. */
  function RiskProfileName(risk: RiskProfile): string {
    match risk
    case High => "high"
    case Medium => "medium"
    case Low => "low"
  }

  /** The profile read back from storage: adopted only when it is exactly one of the three names. */
  function ParseRiskProfile(stored: Option<string>, current: RiskProfile): (r: RiskProfile)
    ensures stored.Some? && stored.value == "high" ==> r == High
    ensures stored.Some? && stored.value == "medium" ==> r == Medium
    ensures stored.Some? && stored.value == "low" ==> r == Low
    ensures stored.None? ==> r == current
  {
    if stored.Some? && stored.value == "high" then High
    else if stored.Some? && stored.value == "medium" then Medium
    else if stored.Some? && stored.value == "low" then Low
    else current
  }

  /** A saved profile is read back unchanged. */
  lemma RiskProfileRoundTrip(risk: RiskProfile, current: RiskProfile)
    ensures ParseRiskProfile(Some(RiskProfileName(risk)), current) == risk
  {
  }

  /** A stored value that is not one of the three names leaves the profile as it was. */
  lemma UnknownRiskProfileIgnored(stored: string, current: RiskProfile)
    requires forall risk: RiskProfile :: stored != RiskProfileName(risk)
    ensures ParseRiskProfile(Some(stored), current) == current
  {
    assert stored != RiskProfileName(High) && stored != RiskProfileName(Medium) && stored != RiskProfileName(Low);
  }

  predicate ProjectIdsUnique(projects: seq<Project>) {
    forall i, j :: 0 <= i < j < |projects| ==> projects[i].id != projects[j].id
  }

  function ProjectId(p: Project): string { p.id }

  /** `handleSaveProject`: a draft with a non-empty id replaces the projects with that id; any
      other draft is appended under `freshId`. */
  function SaveProject(projects: seq<Project>, d: Draft, freshId: string): (r: seq<Project>)
    ensures Truthy(d.id) ==> |r| == |projects|
    ensures Truthy(d.id) ==> forall i :: 0 <= i < |r| ==>
      (projects[i].id == d.id.value ==> r[i] == WithId(d, d.id.value)) &&
      (projects[i].id != d.id.value ==> r[i] == projects[i])
    ensures !Truthy(d.id) ==> r == projects + [WithId(d, freshId)]
  {
    if Truthy(d.id) then ReplaceKeyed(projects, ProjectId, d.id.value, WithId(d, d.id.value))
    else projects + [WithId(d, freshId)]
  }

  /** Saving a draft whose id matches no project changes nothing: it is not added either. */
  lemma SaveUnknownIdIsNoOp(projects: seq<Project>, d: Draft, freshId: string)
    requires Truthy(d.id)
    requires forall i :: 0 <= i < |projects| ==> projects[i].id != d.id.value
    ensures SaveProject(projects, d, freshId) == projects
  {
  }

  /** Saving keeps project ids unique when a new project gets an id not already in use. */
  lemma SavePreservesUniqueIds(projects: seq<Project>, d: Draft, freshId: string)
    requires ProjectIdsUnique(projects)
    requires forall i :: 0 <= i < |projects| ==> projects[i].id != freshId
    ensures ProjectIdsUnique(SaveProject(projects, d, freshId))
  {
    var r := SaveProject(projects, d, freshId);
    if Truthy(d.id) {
      forall i, j | 0 <= i < j < |r| ensures r[i].id != r[j].id {
        assert r[i].id == projects[i].id && r[j].id == projects[j].id;
      }
    }
  }

  /** The page state the delete and plan handlers read and write. */
  datatype PageState = PageState(projects: seq<Project>, selected: Option<Project>,
                                 toDelete: Option<string>, deleteDialogOpen: bool)

  /** `handleDeleteProject`: with a pending id, removes the projects with that id, clears the
      selection if it was the deleted project, and clears the pending id; the dialog closes. */
  function DeleteProject(st: PageState): (r: PageState)
    ensures !r.deleteDialogOpen
    ensures !Truthy(st.toDelete) ==> r == st.(deleteDialogOpen := false)
    ensures Truthy(st.toDelete) ==> r.toDelete.None?
    ensures Truthy(st.toDelete) ==> forall i :: 0 <= i < |r.projects| ==>
      r.projects[i] in st.projects && r.projects[i].id != st.toDelete.value
    ensures Truthy(st.toDelete) ==> forall i :: 0 <= i < |st.projects| && st.projects[i].id != st.toDelete.value ==>
      st.projects[i] in r.projects
    ensures Truthy(st.toDelete) ==>
      (r.selected.None? <==> st.selected.None? || st.selected.value.id == st.toDelete.value)
    ensures r.selected.Some? ==> r.selected == st.selected
  {
    if Truthy(st.toDelete) then
      var id := st.toDelete.value;
      var selected := if st.selected.Some? && st.selected.value.id == id then None else st.selected;
      PageState(Filter(st.projects, (p: Project) => p.id != id), selected, None, false)
    else
      st.(deleteDialogOpen := false)
  }

  /** Deleting an id no project carries keeps the whole list, in order; only the pending id and
      the dialog are cleared. */
  lemma DeleteUnknownProjectKeepsList(st: PageState)
    requires Truthy(st.toDelete)
    requires forall i :: 0 <= i < |st.projects| ==> st.projects[i].id != st.toDelete.value
    ensures DeleteProject(st).projects == st.projects
  {
    FilterKeepsAll(st.projects, (p: Project) => p.id != st.toDelete.value);
  }

  /** `handleSelectPlan`: adopts the plan's monthly contribution for the selected project, both in
      the list and in the selection; without a selection nothing changes. */
  function SelectPlan(st: PageState, contribution: real): (r: PageState)
    ensures st.selected.None? ==> r == st
    ensures st.selected.Some? ==> r.selected == Some(st.selected.value.(monthlyContribution := contribution))
    ensures st.selected.Some? ==> |r.projects| == |st.projects|
    ensures st.selected.Some? ==> forall i :: 0 <= i < |r.projects| ==>
      r.projects[i] == if st.projects[i].id == st.selected.value.id
                       then st.selected.value.(monthlyContribution := contribution)
                       else st.projects[i]
    ensures r.toDelete == st.toDelete && r.deleteDialogOpen == st.deleteDialogOpen
  {
    if st.selected.None? then st
    else
      var updated := st.selected.value.(monthlyContribution := contribution);
      st.(projects := ReplaceKeyed(st.projects, ProjectId, updated.id, updated), selected := Some(updated))
  }

  function Contribution(p: Project): real { p.monthlyContribution }

  /** `totalAllocation`: the summed monthly contributions of all projects; with no project it is
      zero, and with no negative contribution it is at least each single one. */
  function TotalAllocation(projects: seq<Project>): (r: real)
    ensures |projects| == 0 ==> r == 0.0
    ensures (forall i :: 0 <= i < |projects| ==> projects[i].monthlyContribution >= 0.0) ==>
      r >= 0.0 && forall i :: 0 <= i < |projects| ==> projects[i].monthlyContribution <= r
  {
    SumByBounds(projects, Contribution);
    SumBy(projects, Contribution)
  }

  /** Each further project adds its contribution to the total allocation. */
  lemma TotalAllocationAppend(projects: seq<Project>, p: Project)
    ensures TotalAllocation(projects + [p]) == TotalAllocation(projects) + p.monthlyContribution
  {
    SumByAppend(projects, [p], Contribution);
    assert [p][1..] == [];
  }

  /** Selecting a plan for the project at `k`, whose id is unique and whose stored copy is the
      selection, moves the total allocation by the change of that one contribution. */
  lemma SelectPlanTotal(st: PageState, contribution: real, k: nat)
    requires ProjectIdsUnique(st.projects) && k < |st.projects|
    requires st.selected == Some(st.projects[k])
    ensures TotalAllocation(SelectPlan(st, contribution).projects)
         == TotalAllocation(st.projects) - st.projects[k].monthlyContribution + contribution
  {
    var updated := st.projects[k].(monthlyContribution := contribution);
    var r := SelectPlan(st, contribution).projects;
    assert r == st.projects[k := updated];
    SumByUpdate(st.projects, k, updated, Contribution);
  }

  predicate InProgress(p: Project) { p.currentAmount < p.targetAmount }

  predicate Completed(p: Project) { p.currentAmount >= p.targetAmount }

  /** The in-progress and completed counts shown on the page. */
  function ProgressCounts(projects: seq<Project>): (r: (nat, nat))
    ensures r.0 + r.1 == |projects|
  {
    FilterPartitionLength(projects, InProgress, Completed);
    (|Filter(projects, InProgress)|, |Filter(projects, Completed)|)
  }

  /** A new project is counted once, in the column its amounts put it in. */
  lemma ProgressCountsAppend(projects: seq<Project>, p: Project)
    ensures ProgressCounts(projects + [p]).0 == ProgressCounts(projects).0 + (if InProgress(p) then 1 else 0)
    ensures ProgressCounts(projects + [p]).1 == ProgressCounts(projects).1 + (if Completed(p) then 1 else 0)
  {
    FilterAppend(projects, [p], InProgress);
    FilterAppend(projects, [p], Completed);
    assert [p][1..] == [];
  }
}
