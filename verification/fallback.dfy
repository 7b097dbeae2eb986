/**
 * The network-free fallback simulation (generateFallbackTimelines,
 * src/lib/parallel/api.ts:47-150): three fixed archetypes, each with a pool of
 * five event templates. The clock and `Math.random` are parameters: the clock's
 * year is `currentYear`, and `roll(slot, i)` is `Math.floor(Math.random() * 40)`
 * as drawn for event `i` of the timeline in slot `slot`. The fallback's own
 * `id` and `createdAt` are dropped by every caller and are not modelled.
 */
module Fallback {
  import opened Wrappers
  import opened Schema

  /** `Math.floor(Math.random() * 40)`. */
  type Roll = r: int | 0 <= r < 40

  /** A row of the template table (`Partial<Event>` without year and score). */
  datatype Template = Template(title: string, description: string, mood: string)

  const POOL_SIZE := 5

  /** The template pools of archetypes A, B and C (api.ts:50-72). */
  const POOL_A := [
    Template("The Fall", "Everything seemed to crumble at once. The weight of the decision settled in.", "struggling"),
    Template("Rock Bottom", "A moment of clarity found in the deepest valley.", "struggling"),
    Template("The Turn", "Something shifted. A door opened where there was only wall.", "turning-point"),
    Template("Rising Slowly", "Each step forward felt earned, not given.", "hopeful"),
    Template("New Heights", "Looking back, the struggle became the foundation.", "thriving")]
  const POOL_B := [
    Template("Easy Wins", "Success came quickly, almost too easily.", "thriving"),
    Template("Golden Days", "Everything clicked. Life felt like a streak of luck.", "thriving"),
    Template("The Hush", "A quiet settled in. Something felt missing.", "peaceful"),
    Template("Hollow Echo", "The achievements lost their shine.", "struggling"),
    Template("Breaking Point", "The foundation cracked from within.", "chaotic")]
  const POOL_C := [
    Template("Small Steps", "No dramatic turns, just steady movement forward.", "hopeful"),
    Template("Quiet Growth", "Changes happened slowly, almost invisibly.", "peaceful"),
    Template("Crossroads", "A choice that seemed small changed everything.", "turning-point"),
    Template("Finding Flow", "Things started to align naturally.", "hopeful"),
    Template("Quiet Joy", "Not flashy, but deeply, genuinely good.", "thriving")]

  /** The pool of the archetype in slot 0, 1 or 2; every template is filled in. */
  function Pool(slot: nat): (pool: seq<Template>)
    requires slot < 3
    ensures |pool| == POOL_SIZE
    ensures forall i :: 0 <= i < |pool| ==> pool[i].title != "" && pool[i].description != "" && pool[i].mood != ""
  {
    if slot == 0 then POOL_A else if slot == 1 then POOL_B else POOL_C
  }

  /** `startYear || new Date().getFullYear()`. */
  function BaseYear(startYear: Option<int>, currentYear: int): (y: int)
    ensures startYear.Some? && startYear.value != 0 ==> y == startYear.value
    ensures startYear.None? || startYear.value == 0 ==> y == currentYear
  {
    OrNumber(startYear, currentYear)
  }

  const FALLBACK_EVENT_DESCRIPTION := "A significant moment unfolds."

  /** `createEvents(slot)`: the first `years` templates, dated from `baseYear`. */
  function FallbackEvents(slot: nat, years: nat, baseYear: int, roll: (nat, nat) -> Roll): (events: seq<Event>)
    requires slot < 3
    ensures |events| == Min(years, POOL_SIZE) && YearsFrom(events, baseYear)
    ensures forall i :: 0 <= i < |events| ==> 40 <= events[i].moodScore <= 79
  {
    var pool := Pool(slot);
    seq(Min(years, POOL_SIZE), i requires 0 <= i < Min(years, POOL_SIZE) =>
      Event(baseYear + i,
            OrText(Some(pool[i].title), TIMELINE_EVENT_DEFAULTS.title),
            OrText(Some(pool[i].description), FALLBACK_EVENT_DESCRIPTION),
            pool[i].mood,
            40 + roll(slot, i)))
  }

  /** What distinguishes the three archetypes apart from their events. */
  datatype Archetype = Archetype(name: string, emoji: string, description: string, snapshot: FinalSnapshot)

  /** The fixed names, emojis, descriptions and final snapshots (api.ts:93-146).
      The emojis are spelled code point by code point as the source file has
      them, mis-decoded text included. */
  const ARCHETYPE_A := Archetype("The Hard Road", "\U{F8FF}\U{FC}\U{E8}\U{EE}\U{D4}\U{220F}\U{E8}",
    "A challenging path with great rewards",
    FinalSnapshot("Self-Made Entrepreneur", "A bustling city of dreams", "Late but lasting love",
      "Built something from nothing", "The years lost to the climb", 75, 85, 90,
      "The hardest climbs lead to the best views."))
  const ARCHETYPE_B := Archetype("Golden Cage", "\U{F8FF}\U{FC}\U{E8}\U{DC}",
    "Success on paper, emptiness within",
    FinalSnapshot("Corporate Leader", "A prestigious neighborhood", "Distant memories",
      "Reached the top of the ladder", "Forgot to ask why I was climbing", 45, 95, 50,
      "I had everything, except what mattered."))
  const ARCHETYPE_C := Archetype("Wandering Path", "\U{F8FF}\U{FC}\U{E5}\U{F8}",
    "Unconventional but fulfilling",
    FinalSnapshot("Creative Freedom", "Somewhere that feels like home", "Deep, genuine connections",
      "Found my own definition of success", "Sometimes wondering \"what if\"", 80, 70, 75,
      "Contentment is its own kind of success."))

  function ArchetypeOf(slot: nat): Archetype
    requires slot < 3
  {
    if slot == 0 then ARCHETYPE_A else if slot == 1 then ARCHETYPE_B else ARCHETYPE_C
  }

  /** The timeline in slot 0, 1 or 2, with id "A", "B" or "C". */
  function FallbackTimeline(slot: nat, years: nat, baseYear: int, roll: (nat, nat) -> Roll): (t: Timeline)
    requires slot < 3
    ensures t.id == Letter(slot) && |t.events| == Min(years, POOL_SIZE) && YearsFrom(t.events, baseYear)
  {
    var a := ArchetypeOf(slot);
    Timeline(Letter(slot), a.name, a.emoji, a.description, FallbackEvents(slot, years, baseYear, roll), a.snapshot)
  }

  const FALLBACK_SUMMARY := "A choice that echoes through time"
  const FALLBACK_INSIGHT := "Every path has its own beauty and its own burdens. The question is not which path is best, but which path is yours."

  /** `generateFallbackTimelines(decision, years, startYear)` without its id and timestamp. */
  function FallbackSimulation(decision: string, years: nat, startYear: Option<int>, currentYear: int,
                              roll: (nat, nat) -> Roll): (sim: SimulationFields)
    ensures |sim.timelines| == 3 && sim.decision == decision && sim.yearsToSimulate == years
    ensures sim.decisionYear == BaseYear(startYear, currentYear) && sim.insight == FALLBACK_INSIGHT
  {
    var base := BaseYear(startYear, currentYear);
    SimulationFields(decision, base, FALLBACK_SUMMARY, years,
      [FallbackTimeline(0, years, base, roll), FallbackTimeline(1, years, base, roll),
       FallbackTimeline(2, years, base, roll)],
      FALLBACK_INSIGHT)
  }

  /** Every fallback timeline: its id is the slot's letter, its events are the
      first `min(years, 5)` templates in order, dated consecutively from the base
      year, each with a score in [40, 79]. */
  lemma FallbackTimelineShape(slot: nat, years: nat, baseYear: int, roll: (nat, nat) -> Roll)
    requires slot < 3
    ensures var t := FallbackTimeline(slot, years, baseYear, roll);
      && t.id == Letter(slot) && t.name != "" && t.emoji != "" && t.description != ""
      && |t.events| == Min(years, POOL_SIZE)
      && YearsFrom(t.events, baseYear)
      && (forall i :: 0 <= i < |t.events| ==>
            && t.events[i].title == Pool(slot)[i].title
            && t.events[i].description == Pool(slot)[i].description
            && t.events[i].mood == Pool(slot)[i].mood != ""
            && 40 <= t.events[i].moodScore <= 79)
  {
    var t := FallbackTimeline(slot, years, baseYear, roll);
    var pool := Pool(slot);
    forall i | 0 <= i < |t.events|
      ensures t.events[i].title == pool[i].title && t.events[i].description == pool[i].description
      ensures t.events[i].mood == pool[i].mood != ""
      ensures 40 <= t.events[i].moodScore <= 79
    {
      assert pool[i].title != "" && pool[i].description != "";
      assert t.events[i].title == OrText(Some(pool[i].title), TIMELINE_EVENT_DEFAULTS.title);
      assert t.events[i].description == OrText(Some(pool[i].description), FALLBACK_EVENT_DESCRIPTION);
    }
  }

  /** The fallback simulation has exactly three timelines, with ids A, B, C in
      that order, every one dated from the decision year it reports. */
  lemma FallbackSimulationShape(decision: string, years: nat, startYear: Option<int>, currentYear: int,
                                roll: (nat, nat) -> Roll)
    ensures var sim := FallbackSimulation(decision, years, startYear, currentYear, roll);
      && |sim.timelines| == 3
      && sim.timelines[0].id == Letter(0) && sim.timelines[1].id == Letter(1) && sim.timelines[2].id == Letter(2)
      && sim.decision == decision && sim.yearsToSimulate == years
      && (forall k :: 0 <= k < 3 ==>
            |sim.timelines[k].events| == Min(years, POOL_SIZE)
            && YearsFrom(sim.timelines[k].events, sim.decisionYear))
  {
    var sim := FallbackSimulation(decision, years, startYear, currentYear, roll);
    forall k | 0 <= k < 3
      ensures |sim.timelines[k].events| == Min(years, POOL_SIZE)
      ensures YearsFrom(sim.timelines[k].events, sim.decisionYear)
    {
      FallbackTimelineShape(k, years, sim.decisionYear, roll);
    }
  }

  /** The pools are shorter than the longest horizons offered: for a horizon of
      7 or 10 years the fallback timelines stop after 5 events. */
  lemma FallbackShortOfLongHorizon(decision: string, currentYear: int, roll: (nat, nat) -> Roll)
    ensures |FallbackSimulation(decision, 10, None, currentYear, roll).timelines[0].events| == 5
  {
  }
}
