/**
 * The pure logic of the home page (src/app/page.tsx): the ripple splice of
 * `handleRippleChange`, the target lookup of `handleBranch`, the list updates of
 * the generate and delete handlers, the "Best path" of the share text, and the
 * check that decides whether generated output looks like example data.
 */
module Page {
  import opened Wrappers
  import opened Schema
  import opened Text
  import opened Lists
  import Fallback

  // ---------------------------------------------------------------------------
  // The ripple splice (page.tsx:221-243)
  // ---------------------------------------------------------------------------

  /** One timeline after a ripple: the events before `eventIndex`, then the new
      events, and the new final snapshot; the rest of the timeline is kept. */
  function SpliceTimeline(t: Timeline, eventIndex: int, newEvents: seq<Event>, newSnapshot: FinalSnapshot): (r: Timeline)
    ensures r.id == t.id && r.name == t.name && r.emoji == t.emoji && r.description == t.description
    ensures r.finalSnapshot == newSnapshot
    ensures 0 <= eventIndex <= |t.events| ==> r.events == t.events[..eventIndex] + newEvents
  {
    t.(events := SliceTo(t.events, eventIndex) + newEvents, finalSnapshot := newSnapshot)
  }

  /** `timelines.map((timeline, tIdx) => tIdx !== timelineIndex ? timeline : ...)`. */
  function SpliceTimelines(timelines: seq<Timeline>, timelineIndex: int, eventIndex: int,
                           newEvents: seq<Event>, newSnapshot: FinalSnapshot): (r: seq<Timeline>)
    ensures |r| == |timelines|
    ensures forall i :: 0 <= i < |r| && i != timelineIndex ==> r[i] == timelines[i]
    ensures 0 <= timelineIndex < |r| ==>
              r[timelineIndex] == SpliceTimeline(timelines[timelineIndex], eventIndex, newEvents, newSnapshot)
  {
    seq(|timelines|, i requires 0 <= i < |timelines| =>
      if i == timelineIndex then SpliceTimeline(timelines[i], eventIndex, newEvents, newSnapshot) else timelines[i])
  }

  /** `{ ...currentSimulation, timelines: updatedTimelines }`: only the
      timelines change. */
  function ApplyRipple(sim: Simulation, timelineIndex: int, eventIndex: int,
                       newEvents: seq<Event>, newSnapshot: FinalSnapshot): (r: Simulation)
    ensures r == sim.(timelines := r.timelines)
    ensures r.timelines == SpliceTimelines(sim.timelines, timelineIndex, eventIndex, newEvents, newSnapshot)
  {
    sim.(timelines := SpliceTimelines(sim.timelines, timelineIndex, eventIndex, newEvents, newSnapshot))
  }

  /** A branch of `|events| - eventIndex` new events, the count the branch
      modal asks for, leaves the timeline as long as it was; when the new events
      are dated from the replaced event's year, the years stay consecutive. */
  lemma RippleKeepsShape(t: Timeline, start: int, eventIndex: int, newEvents: seq<Event>, newSnapshot: FinalSnapshot)
    requires 0 <= eventIndex < |t.events|
    requires |newEvents| == |t.events| - eventIndex
    requires YearsFrom(t.events, start) && YearsFrom(newEvents, t.events[eventIndex].year)
    ensures var r := SpliceTimeline(t, eventIndex, newEvents, newSnapshot);
      |r.events| == |t.events| && YearsFrom(r.events, start)
  {
    var r := SpliceTimeline(t, eventIndex, newEvents, newSnapshot);
    forall i | 0 <= i < |r.events| ensures r.events[i].year == start + i {
      if i >= eventIndex {
        assert r.events[i] == newEvents[i - eventIndex];
      }
    }
  }

  /** With the index -1 that a failed `findIndex` gives, the splice drops the
      timeline's last event instead of keeping the whole timeline. */
  lemma RippleAtMinusOneDropsLast(t: Timeline, newEvents: seq<Event>, newSnapshot: FinalSnapshot)
    requires |t.events| > 0
    ensures SpliceTimeline(t, -1, newEvents, newSnapshot).events == t.events[..|t.events| - 1] + newEvents
  {
  }

  // ---------------------------------------------------------------------------
  // The branch target (page.tsx:199-211)
  // ---------------------------------------------------------------------------

  /** Where a click on `event` in the column of `timelineId` lands: the first
      timeline with that id and, in it, the first event with the same year and
      title (-1 if there is none). `None` where `timelines[-1].events` throws. */
  function LocateBranchTarget(timelines: seq<Timeline>, event: Event, timelineId: string): (r: Option<(int, int)>)
    ensures r.None? <==> forall i :: 0 <= i < |timelines| ==> timelines[i].id != timelineId
    ensures r.Some? ==> var (ti, ei) := r.value;
      && 0 <= ti < |timelines| && timelines[ti].id == timelineId
      && (forall i :: 0 <= i < ti ==> timelines[i].id != timelineId)
      && -1 <= ei < |timelines[ti].events|
      && (ei >= 0 ==> SameEvent(timelines[ti].events[ei], event))
      && (forall j :: 0 <= j < |timelines[ti].events| && (ei == -1 || j < ei) ==> !SameEvent(timelines[ti].events[j], event))
  {
    var ti := FindIndex(timelines, (t: Timeline) => t.id == timelineId);
    if ti == -1 then None
    else Some((ti, FindIndex(timelines[ti].events, (e: Event) => SameEvent(e, event))))
  }

  predicate SameEvent(e: Event, event: Event)
  {
    e.year == event.year && e.title == event.title
  }

  /** The ids of a simulation's timelines are pairwise distinct. */
  predicate DistinctIds(timelines: seq<Timeline>)
  {
    forall i, j :: 0 <= i < j < |timelines| ==> timelines[i].id != timelines[j].id
  }

  /** With distinct ids and consecutive years, a click on event `j` of timeline
      `k` locates exactly `(k, j)`. */
  lemma LocateFindsClickedEvent(timelines: seq<Timeline>, start: int, k: nat, j: nat)
    requires DistinctIds(timelines) && k < |timelines| && j < |timelines[k].events|
    requires YearsFrom(timelines[k].events, start)
    ensures LocateBranchTarget(timelines, timelines[k].events[j], timelines[k].id) == Some((k, j))
  {
    var r := LocateBranchTarget(timelines, timelines[k].events[j], timelines[k].id);
    var (ti, ei) := r.value;
    assert ti <= k;
    assert ti == k;
    assert ei >= 0;
    assert timelines[k].events[ei].year == start + ei;
  }

  /** With a repeated id the lookup lands in the first timeline carrying it: a
      click on the first event of the second of two timelines "B" whose events
      differ finds no event there, and the splice then rewrites the wrong
      timeline. */
  lemma RepeatedIdMislocates(t0: Timeline, t1: Timeline, start: int)
    requires t0.id == t1.id && |t0.events| > 0 && |t1.events| > 0
    requires YearsFrom(t0.events, start) && YearsFrom(t1.events, start)
    requires forall i :: 0 <= i < |t0.events| ==> t0.events[i].title != t1.events[0].title
    ensures LocateBranchTarget([t0, t1], t1.events[0], t1.id) == Some((0, -1))
  {
  }

  // ---------------------------------------------------------------------------
  // The list handlers (page.tsx:143-196) and the share text (page.tsx:82-84)
  // ---------------------------------------------------------------------------

  /** `[simulation, ...prev.filter(s => s.id !== simulation.id)]`. */
  function AfterGenerate(prev: seq<Simulation>, simulation: Simulation): (r: seq<Simulation>)
    ensures |r| > 0 && r[0] == simulation
    ensures forall i :: 1 <= i < |r| ==> r[i].id != simulation.id && r[i] in prev
    ensures forall i :: 0 <= i < |prev| && prev[i].id != simulation.id ==> prev[i] in r
    ensures r[1..] == WithoutId(prev, simulation.id)
  {
    [simulation] + WithoutId(prev, simulation.id)
  }

  /** `prev.filter(s => s.id !== id)`. */
  function WithoutId(prev: seq<Simulation>, id: string): (r: seq<Simulation>)
    ensures forall i :: 0 <= i < |r| ==> r[i].id != id && r[i] in prev
    ensures forall i :: 0 <= i < |prev| && prev[i].id != id ==> prev[i] in r
  {
    Filter(prev, (s: Simulation) => s.id != id)
  }

  /** Deleting an id nobody carries leaves the list as it is. */
  lemma WithoutAbsentId(prev: seq<Simulation>, id: string)
    requires forall i :: 0 <= i < |prev| ==> prev[i].id != id
    ensures WithoutId(prev, id) == prev
  {
    FilterKeepsAll(prev, (s: Simulation) => s.id != id);
  }

  /** Deleting works element by element and in place: around any entry, the
      entries before and after it are filtered where they stand, and the entry
      itself is kept exactly when its id differs. */
  lemma WithoutIdAround(a: seq<Simulation>, x: Simulation, b: seq<Simulation>, id: string)
    ensures WithoutId(a + [x] + b, id) == WithoutId(a, id) + (if x.id != id then [x] else []) + WithoutId(b, id)
  {
    FilterAround(a, x, b, (s: Simulation) => s.id != id);
  }

  /** Deleting the one entry that carries the id removes exactly that entry and
      keeps all the others in their order. */
  lemma WithoutUniqueId(a: seq<Simulation>, x: Simulation, b: seq<Simulation>)
    requires forall i :: 0 <= i < |a| ==> a[i].id != x.id
    requires forall i :: 0 <= i < |b| ==> b[i].id != x.id
    ensures WithoutId(a + [x] + b, x.id) == a + b
  {
    WithoutIdAround(a, x, b, x.id);
    WithoutAbsentId(a, x.id);
    WithoutAbsentId(b, x.id);
  }

  /** Each entry occurs in the list after a delete as often as before, unless it
      carries the deleted id. */
  lemma WithoutIdMultiplicity(prev: seq<Simulation>, id: string, s: Simulation)
    ensures multiset(WithoutId(prev, id))[s] == if s.id != id then multiset(prev)[s] else 0
  {
    FilterMultiplicity(prev, (t: Simulation) => t.id != id, s);
  }

  /** A simulation with a new id goes in front of the unchanged history. */
  lemma AfterGenerateFreshId(prev: seq<Simulation>, simulation: Simulation)
    requires forall i :: 0 <= i < |prev| ==> prev[i].id != simulation.id
    ensures AfterGenerate(prev, simulation) == [simulation] + prev
  {
    WithoutAbsentId(prev, simulation.id);
  }

  /** A simulation whose id one history entry already carries replaces that
      entry and moves to the front; the other entries keep their order. */
  lemma AfterGenerateMovesToFront(a: seq<Simulation>, x: Simulation, b: seq<Simulation>, simulation: Simulation)
    requires x.id == simulation.id
    requires forall i :: 0 <= i < |a| ==> a[i].id != x.id
    requires forall i :: 0 <= i < |b| ==> b[i].id != x.id
    ensures AfterGenerate(a + [x] + b, simulation) == [simulation] + a + b
  {
    WithoutUniqueId(a, x, b);
  }

  /** `sims.map(s => s.id === current.id ? updated : s)`. */
  function ReplaceById(sims: seq<Simulation>, id: string, updated: Simulation): (r: seq<Simulation>)
    ensures |r| == |sims|
    ensures forall i :: 0 <= i < |r| ==> r[i] == if sims[i].id == id then updated else sims[i]
  {
    seq(|sims|, i requires 0 <= i < |sims| => if sims[i].id == id then updated else sims[i])
  }

  /** The timeline named after "Best path": the first one with the greatest
      happiness score (`reduce` with a strict `>`). */
  function BestPath(timelines: seq<Timeline>): (i: nat)
    requires |timelines| > 0
    ensures i < |timelines|
    ensures forall j :: 0 <= j < |timelines| ==>
              timelines[j].finalSnapshot.happinessScore <= timelines[i].finalSnapshot.happinessScore
    ensures forall j :: 0 <= j < i ==>
              timelines[j].finalSnapshot.happinessScore < timelines[i].finalSnapshot.happinessScore
  {
    var scores := seq(|timelines|, j requires 0 <= j < |timelines| => timelines[j].finalSnapshot.happinessScore);
    var best := FirstMaxIndex(scores);
    assert forall j :: 0 <= j < |timelines| ==> scores[j] == timelines[j].finalSnapshot.happinessScore;
    best
  }

  // ---------------------------------------------------------------------------
  // "Does this look like example data?" (page.tsx:162)
  // ---------------------------------------------------------------------------

  const LIFE_EVENT := "Life Event"

  /** The check as written: the first event of the first timeline has a title
      containing "Life Event", which is the normalizer's default title. */
  predicate LooksLikeExampleAsWritten(result: SimulationFields)
    ensures LooksLikeExampleAsWritten(result) ==> |result.timelines| > 0 && |result.timelines[0].events| > 0
  {
    |result.timelines| > 0 && |result.timelines[0].events| > 0
    && Includes(result.timelines[0].events[0].title, LIFE_EVENT)
  }

  /** The fallback's first timeline opens with "The Fall", shorter than
      "Life Event": the check as written never recognizes the fallback. */
  lemma ExampleCheckMissesFallback(decision: string, n: nat, startYear: Option<int>, currentYear: int,
                                   roll: (nat, nat) -> Fallback.Roll)
    ensures !LooksLikeExampleAsWritten(Fallback.FallbackSimulation(decision, n, startYear, currentYear, roll))
  {
    var sim := Fallback.FallbackSimulation(decision, n, startYear, currentYear, roll);
    if |sim.timelines[0].events| > 0 {
      Fallback.FallbackTimelineShape(0, n, sim.decisionYear, roll);
      assert sim.timelines[0].events[0].title == Fallback.POOL_A[0].title;
      IncludesNeedsRoom(sim.timelines[0].events[0].title, LIFE_EVENT);
    }
  }

  /** ... and it does flag a reply whose first event merely lacks a title. */
  lemma ExampleCheckFlagsUntitledReply(sim: SimulationFields)
    requires |sim.timelines| > 0 && |sim.timelines[0].events| > 0
    requires sim.timelines[0].events[0].title == TIMELINE_EVENT_DEFAULTS.title
    ensures LooksLikeExampleAsWritten(sim)
  {
    assert StartsWith(sim.timelines[0].events[0].title, LIFE_EVENT);
  }

  /** The evident intent: the result is the offline example, recognized by the
      closing insight only the fallback carries. */
  predicate LooksLikeExample(result: SimulationFields)
    ensures LooksLikeExample(result) ==> result.insight != DEFAULT_INSIGHT
  {
    result.insight == Fallback.FALLBACK_INSIGHT
  }

  /** The corrected check flags every fallback simulation. */
  lemma ExampleCheckFlagsFallback(decision: string, n: nat, startYear: Option<int>, currentYear: int,
                                  roll: (nat, nat) -> Fallback.Roll)
    ensures LooksLikeExample(Fallback.FallbackSimulation(decision, n, startYear, currentYear, roll))
  {
  }
}
