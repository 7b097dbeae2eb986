/**
 * The browser store of past simulations and branch records
 * (src/lib/parallel/storage.ts:52-156). Each key of `localStorage` is a field
 * holding what was last written under it; reading an absent key or text that
 * does not parse yields an empty collection. Ids and timestamps
 * (`generateId`, `new Date().toISOString()`) are parameters.
 */
module Storage {
  import opened Wrappers
  import opened Schema
  import opened Lists

  /** The content of one `localStorage` key. */
  datatype Stored<T> = Absent | Unreadable | Written(value: T)

  const MAX_SAVED := 20

  /** `[simulation, ...list].slice(0, 20)`: the new simulation first, the
      oldest entries beyond twenty dropped. */
  function Prepend20(list: seq<Simulation>, simulation: Simulation): (r: seq<Simulation>)
    ensures |r| == Min(|list| + 1, MAX_SAVED) && r[0] == simulation
    ensures |list| < MAX_SAVED ==> r == [simulation] + list
    ensures |list| >= MAX_SAVED ==> r == [simulation] + list[..MAX_SAVED - 1]
  {
    Take([simulation] + list, MAX_SAVED)
  }

  /** `list.find(s => s.id === id) || null`. */
  function FirstWithId(list: seq<Simulation>, id: string): (r: Option<Simulation>)
    ensures r.None? <==> forall i :: 0 <= i < |list| ==> list[i].id != id
    ensures r.Some? ==> exists i :: 0 <= i < |list| && list[i] == r.value && r.value.id == id
                          && forall j :: 0 <= j < i ==> list[j].id != id
  {
    var i := FindIndex(list, (s: Simulation) => s.id == id);
    if i == -1 then None else Some(list[i])
  }

  /** `branches[simulationId] || []`. */
  function BranchesOf(branches: map<string, seq<BranchEvent>>, simulationId: string): (r: seq<BranchEvent>)
    ensures simulationId !in branches ==> r == []
    ensures simulationId in branches ==> r == branches[simulationId]
  {
    if simulationId in branches then branches[simulationId] else []
  }

  /** The branch map after `branches[simulationId].push(branch)`, the list
      created first when absent. */
  function AppendBranch(branches: map<string, seq<BranchEvent>>, simulationId: string, branch: BranchEvent)
    : (r: map<string, seq<BranchEvent>>)
    ensures r.Keys == branches.Keys + {simulationId}
    ensures BranchesOf(r, simulationId) == BranchesOf(branches, simulationId) + [branch]
    ensures forall id :: id != simulationId ==> BranchesOf(r, id) == BranchesOf(branches, id)
  {
    branches[simulationId := BranchesOf(branches, simulationId) + [branch]]
  }

  class Store {
    /** `localStorage['parallel_simulations']` */
    var simulationsData: Stored<seq<Simulation>>
    /** `localStorage['parallel_branches']` */
    var branchesData: Stored<map<string, seq<BranchEvent>>>

    /** A store as the page finds it on load. */
    constructor (simulationsData: Stored<seq<Simulation>>, branchesData: Stored<map<string, seq<BranchEvent>>>)
      ensures this.simulationsData == simulationsData && this.branchesData == branchesData
    {
      this.simulationsData := simulationsData;
      this.branchesData := branchesData;
    }

    /** The saved list never exceeds twenty entries. */
    predicate Valid()
      reads this
    {
      |Simulations()| <= MAX_SAVED
    }

    /** `getSimulations()`: an absent or unreadable key reads as `[]`. */
    function Simulations(): (r: seq<Simulation>)
      reads this
      ensures !simulationsData.Written? ==> r == []
    {
      if simulationsData.Written? then simulationsData.value else []
    }

    /** `getBranches()`: an absent or unreadable key reads as `{}`. */
    function Branches(): (r: map<string, seq<BranchEvent>>)
      reads this
      ensures !branchesData.Written? ==> r == map[]
    {
      if branchesData.Written? then branchesData.value else map[]
    }

    /** `saveSimulation(fields)` with the fresh id and timestamp given. */
    method SaveSimulation(fields: SimulationFields, id: string, createdAt: string) returns (simulation: Simulation)
      modifies this
      ensures simulation == WithIdentity(fields, id, createdAt)
      ensures simulationsData == Written(Prepend20(old(Simulations()), simulation))
      ensures branchesData == old(branchesData)
      ensures Valid()
    {
      var simulations := Simulations();
      simulation := WithIdentity(fields, id, createdAt);
      simulations := [simulation] + simulations;
      var trimmed := Take(simulations, MAX_SAVED);
      simulationsData := Written(trimmed);
    }

    /** `deleteSimulation(id)`. */
    method DeleteSimulation(id: string)
      modifies this
      ensures simulationsData == Written(Filter(old(Simulations()), (s: Simulation) => s.id != id))
      ensures branchesData == old(branchesData)
      ensures old(Valid()) ==> Valid()
    {
      var simulations := Simulations();
      var filtered := Filter(simulations, (s: Simulation) => s.id != id);
      simulationsData := Written(filtered);
    }

    /** `getSimulationById(id)`. */
    function SimulationById(id: string): (r: Option<Simulation>)
      reads this
      ensures r.None? <==> forall i :: 0 <= i < |Simulations()| ==> Simulations()[i].id != id
      ensures r.Some? ==> exists i :: 0 <= i < |Simulations()| && Simulations()[i] == r.value && r.value.id == id
                            && forall j :: 0 <= j < i ==> Simulations()[j].id != id
    {
      FirstWithId(Simulations(), id)
    }

    /** `saveBranchEvent(simulationId, draft)` with the fresh id and timestamp given. */
    method SaveBranchEvent(simulationId: string, draft: BranchDraft, id: string, createdAt: string)
      returns (branch: BranchEvent)
      modifies this
      ensures branch == BranchEvent(id, draft.parentEventYear, draft.parentEventTitle, draft.alternateChoice,
                                    draft.followUpEvents, createdAt)
      ensures branchesData == Written(AppendBranch(old(Branches()), simulationId, branch))
      ensures simulationsData == old(simulationsData)
    {
      var branches := Branches();
      branch := BranchEvent(id, draft.parentEventYear, draft.parentEventTitle, draft.alternateChoice,
                            draft.followUpEvents, createdAt);
      ghost var before := branches;
      if simulationId !in branches {
        branches := branches[simulationId := []];
      }
      assert branches[simulationId] == BranchesOf(before, simulationId);
      branches := branches[simulationId := branches[simulationId] + [branch]];
      assert branches == AppendBranch(before, simulationId, branch);
      branchesData := Written(branches);
    }

    /** `getBranchesForSimulation(simulationId)`. */
    function BranchesForSimulation(simulationId: string): (r: seq<BranchEvent>)
      reads this
      ensures simulationId in Branches() ==> r == Branches()[simulationId]
      ensures simulationId !in Branches() ==> r == []
    {
      BranchesOf(Branches(), simulationId)
    }

    /** `localStorage.setItem('parallel_simulations', JSON.stringify(list))`, as
        the page does it directly after a ripple. */
    method WriteSimulations(list: seq<Simulation>)
      modifies this
      ensures simulationsData == Written(list) && branchesData == old(branchesData)
    {
      simulationsData := Written(list);
    }
  }

  /** Deleting an id no entry carries leaves the list unchanged; deleting keeps
      only entries with another id. */
  lemma DeleteAbsentIsNoOp(list: seq<Simulation>, id: string)
    requires forall i :: 0 <= i < |list| ==> list[i].id != id
    ensures Filter(list, (s: Simulation) => s.id != id) == list
  {
    FilterKeepsAll(list, (s: Simulation) => s.id != id);
  }
}
