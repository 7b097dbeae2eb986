/**
 * The state of the home page (src/app/page.tsx:123-256): the simulation on
 * screen, the history list, the branch selection handed to the branch modal,
 * and the browser store behind them. Each `useCallback` handler is a method;
 * a `setState` is a field assignment. Toasts, scrolling and the loading flag
 * are presentation and are not modelled; the one decision a toast depends on,
 * whether the result looks like example data, is returned.
 */
module Home {
  import opened Wrappers
  import opened Schema
  import opened Lists
  import opened Page
  import opened Storage
  import opened Generate
  import Fallback

  class Home {
    /** `currentSimulation` */
    var current: Option<Simulation>
    /** `simulations`, the history list shown in the sidebar */
    var simulations: seq<Simulation>
    /** `branchModalOpen` */
    var modalOpen: bool
    /** `selectedEvent` */
    var selectedEvent: Option<Event>
    /** `selectedEventIndex` */
    var selectedEventIndex: int
    /** `selectedTimeline` */
    var selectedTimeline: Option<Timeline>
    /** `selectedTimelineIndex` */
    var selectedTimelineIndex: int
    /** The browser's `localStorage`, shared with the storage functions. */
    const store: Store

    /** The page's selection always describes a real event position: an open
        modal has an event and a timeline, and the event index is the one
        `findIndex` gave inside the selected timeline (-1 when not found). */
    predicate Valid()
      reads this, store
    {
      && store.Valid()
      && (modalOpen ==> selectedEvent.Some? && selectedTimeline.Some?)
      && (selectedTimeline.Some? ==>
            0 <= selectedTimelineIndex && -1 <= selectedEventIndex < |selectedTimeline.value.events|)
    }

    /** First render and the mount effect (page.tsx:123-135): nothing selected,
        the history read from storage. */
    constructor (store: Store)
      requires store.Valid()
      ensures this.store == store && Valid()
      ensures current == None && simulations == store.Simulations()
      ensures !modalOpen && selectedEvent == None && selectedTimeline == None
      ensures selectedEventIndex == 0 && selectedTimelineIndex == 0
    {
      this.store := store;
      current := None;
      modalOpen := false;
      selectedEvent := None;
      selectedEventIndex := 0;
      selectedTimeline := None;
      selectedTimelineIndex := 0;
      simulations := store.Simulations();
    }

    /** `handleGenerate(decision, yearsToSimulate)` (page.tsx:143-178): the
        result is saved, shown and put first in the history; `exampleNotice`
        says whether the "AI service unavailable" notice is shown. */
    method HandleGenerate(decision: string, years: nat, currentYear: int, reply: Reply,
                          parse: string -> Parsed<RawResponse>, roll: (nat, nat) -> Fallback.Roll,
                          id: string, createdAt: string)
      returns (simulation: Simulation, exampleNotice: bool)
      requires Valid()
      modifies this, store
      ensures Valid()
      ensures simulation == WithIdentity(Generated(decision, years, currentYear, reply, parse, roll), id, createdAt)
      ensures store.simulationsData == Written(Prepend20(old(store.Simulations()), simulation))
      ensures store.branchesData == old(store.branchesData)
      ensures current == Some(simulation)
      ensures simulations == AfterGenerate(old(simulations), simulation)
      ensures exampleNotice <==> LooksLikeExample(Fields(simulation))
      ensures modalOpen == old(modalOpen) && selectedEvent == old(selectedEvent)
      ensures selectedTimeline == old(selectedTimeline)
      ensures selectedEventIndex == old(selectedEventIndex) && selectedTimelineIndex == old(selectedTimelineIndex)
    {
      var result := GenerateTimelines(decision, years, currentYear, reply, parse, roll);
      simulation, exampleNotice := Show(result, id, createdAt);
    }

    /** The part of `handleGenerate` after the request: save, show, list first. */
    method Show(result: SimulationFields, id: string, createdAt: string)
      returns (simulation: Simulation, exampleNotice: bool)
      requires Valid()
      modifies this, store
      ensures Valid()
      ensures simulation == WithIdentity(result, id, createdAt)
      ensures store.simulationsData == Written(Prepend20(old(store.Simulations()), simulation))
      ensures store.branchesData == old(store.branchesData)
      ensures current == Some(simulation)
      ensures simulations == AfterGenerate(old(simulations), simulation)
      ensures exampleNotice <==> LooksLikeExample(Fields(simulation))
      ensures modalOpen == old(modalOpen) && selectedEvent == old(selectedEvent)
      ensures selectedTimeline == old(selectedTimeline)
      ensures selectedEventIndex == old(selectedEventIndex) && selectedTimelineIndex == old(selectedTimelineIndex)
    {
      simulation := store.SaveSimulation(result, id, createdAt);
      current := Some(simulation);
      simulations := AfterGenerate(simulations, simulation);
      exampleNotice := LooksLikeExample(result);
    }

    /** `handleLoadSimulation(simulation)` (page.tsx:181-184). */
    method HandleLoad(simulation: Simulation)
      requires Valid()
      modifies this
      ensures Valid()
      ensures current == Some(simulation)
      ensures simulations == old(simulations) && modalOpen == old(modalOpen)
      ensures selectedEvent == old(selectedEvent) && selectedTimeline == old(selectedTimeline)
      ensures selectedEventIndex == old(selectedEventIndex) && selectedTimelineIndex == old(selectedTimelineIndex)
    {
      current := Some(simulation);
    }

    /** `handleDeleteSimulation(id)` (page.tsx:187-196): removed from storage and
        from the history; the simulation on screen is cleared when it is the one
        deleted. */
    method HandleDelete(id: string)
      requires Valid()
      modifies this, store
      ensures Valid()
      ensures store.simulationsData == Written(WithoutId(old(store.Simulations()), id))
      ensures store.branchesData == old(store.branchesData)
      ensures simulations == WithoutId(old(simulations), id)
      ensures forall i :: 0 <= i < |simulations| ==> simulations[i].id != id
      ensures current == if old(current).Some? && old(current).value.id == id then None else old(current)
      ensures modalOpen == old(modalOpen)
      ensures selectedEvent == old(selectedEvent) && selectedTimeline == old(selectedTimeline)
      ensures selectedEventIndex == old(selectedEventIndex) && selectedTimelineIndex == old(selectedTimelineIndex)
    {
      store.DeleteSimulation(id);
      simulations := WithoutId(simulations, id);
      if current.Some? && current.value.id == id {
        current := None;
      }
    }

    /** `handleBranch(event, timelineId)` (page.tsx:199-211): opens the modal on
        the located event. Without a simulation nothing happens; when no
        timeline carries the id, `timelines[-1].events` throws before any state
        is set, so nothing changes either. */
    method HandleBranch(event: Event, timelineId: string)
      requires Valid()
      modifies this
      ensures Valid()
      ensures current == old(current) && simulations == old(simulations)
      ensures var target := if old(current).Some? then LocateBranchTarget(old(current).value.timelines, event, timelineId) else None;
        if target.None? then
          && modalOpen == old(modalOpen) && selectedEvent == old(selectedEvent)
          && selectedTimeline == old(selectedTimeline)
          && selectedEventIndex == old(selectedEventIndex) && selectedTimelineIndex == old(selectedTimelineIndex)
        else
          && modalOpen && selectedEvent == Some(event)
          && selectedTimelineIndex == target.value.0 && selectedEventIndex == target.value.1
          && selectedTimeline == Some(old(current).value.timelines[target.value.0])
    {
      if current.None? {
        return;
      }
      var target := LocateBranchTarget(current.value.timelines, event, timelineId);
      if target.None? {
        return;
      }
      var (timelineIndex, eventIndex) := target.value;
      selectedEvent := Some(event);
      selectedEventIndex := eventIndex;
      selectedTimeline := Some(current.value.timelines[timelineIndex]);
      selectedTimelineIndex := timelineIndex;
      modalOpen := true;
    }

    /** `handleCloseBranchModal()` (page.tsx:214-218): the indices are left as
        they were. */
    method HandleCloseBranchModal()
      requires Valid()
      modifies this
      ensures Valid()
      ensures !modalOpen && selectedEvent == None && selectedTimeline == None
      ensures selectedEventIndex == old(selectedEventIndex) && selectedTimelineIndex == old(selectedTimelineIndex)
      ensures current == old(current) && simulations == old(simulations)
    {
      modalOpen := false;
      selectedEvent := None;
      selectedTimeline := None;
    }

    /** `handleRippleChange(timelineIndex, eventIndex, alternateChoice, newEvents,
        newSnapshot)` (page.tsx:221-256): the simulation on screen gets the
        spliced timeline, every stored entry with its id is replaced by it, and
        the history becomes the stored list. `alternateChoice` is not used. */
    method HandleRippleChange(timelineIndex: int, eventIndex: int, alternateChoice: string,
                              newEvents: seq<Event>, newSnapshot: FinalSnapshot)
      requires Valid()
      modifies this, store
      ensures Valid()
      ensures old(current).None? ==>
                current == None && simulations == old(simulations)
                && store.simulationsData == old(store.simulationsData)
      ensures old(current).Some? ==>
                var updated := ApplyRipple(old(current).value, timelineIndex, eventIndex, newEvents, newSnapshot);
                && current == Some(updated)
                && store.simulationsData == Written(ReplaceById(old(store.Simulations()), updated.id, updated))
                && simulations == ReplaceById(old(store.Simulations()), updated.id, updated)
      ensures store.branchesData == old(store.branchesData)
      ensures modalOpen == old(modalOpen)
      ensures selectedEvent == old(selectedEvent) && selectedTimeline == old(selectedTimeline)
      ensures selectedEventIndex == old(selectedEventIndex) && selectedTimelineIndex == old(selectedTimelineIndex)
    {
      if current.None? {
        return;
      }
      var updated := ApplyRipple(current.value, timelineIndex, eventIndex, newEvents, newSnapshot);
      current := Some(updated);
      var all := store.Simulations();
      var updatedSimulations := ReplaceById(all, updated.id, updated);
      store.WriteSimulations(updatedSimulations);
      simulations := updatedSimulations;
    }
  }

  /** With the corrected check, a failed request always brings up the
      "AI service unavailable" notice. */
  lemma NoticeOnFallback(decision: string, years: nat, currentYear: int, reply: Reply,
                         parse: string -> Parsed<RawResponse>, roll: (nat, nat) -> Fallback.Roll)
    requires reply.TransportFailure?
    ensures LooksLikeExample(Generated(decision, years, currentYear, reply, parse, roll))
  {
    FailuresFallBack(decision, years, currentYear, reply, parse, roll);
  }
}
