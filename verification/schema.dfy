/**
 * The shared data contracts of the timeline simulator (src/lib/parallel/storage.ts:3-50)
 * together with the shapes an untrusted JSON reply can take before normalization,
 * and the table of default values the normalizer and the branch generator fill in.
 */
module Schema {
  import opened Wrappers

  /** One narrative beat. `mood` is kept as text: the normalizer copies whatever
      non-empty mood the upstream service supplies. */
  datatype Event = Event(year: int, title: string, description: string, mood: string, moodScore: int)

  datatype FinalSnapshot = FinalSnapshot(
    career: string, location: string, relationship: string,
    keyAchievement: string, biggestRegret: string,
    happinessScore: int, wealthScore: int, growthScore: int,
    quote: string)

  datatype Timeline = Timeline(
    id: string, name: string, emoji: string, description: string,
    events: seq<Event>, finalSnapshot: FinalSnapshot)

  /** What the generator hands back: a simulation without its storage identity
      (`Omit<Simulation, 'id' | 'createdAt'>`). */
  datatype SimulationFields = SimulationFields(
    decision: string, decisionYear: int, decisionSummary: string,
    yearsToSimulate: nat, timelines: seq<Timeline>, insight: string)

  datatype Simulation = Simulation(
    id: string, decision: string, decisionYear: int, decisionSummary: string,
    yearsToSimulate: nat, timelines: seq<Timeline>, insight: string, createdAt: string)

  /** A branch record without its storage identity (`Omit<BranchEvent, 'id' | 'createdAt'>`). */
  datatype BranchDraft = BranchDraft(
    parentEventYear: int, parentEventTitle: string, alternateChoice: string,
    followUpEvents: seq<Event>)

  datatype BranchEvent = BranchEvent(
    id: string, parentEventYear: int, parentEventTitle: string, alternateChoice: string,
    followUpEvents: seq<Event>, createdAt: string)

  /** `{ ...fields, id, createdAt }` */
  function WithIdentity(f: SimulationFields, id: string, createdAt: string): (s: Simulation)
    ensures s.id == id && s.createdAt == createdAt && Fields(s) == f
  {
    Simulation(id, f.decision, f.decisionYear, f.decisionSummary, f.yearsToSimulate,
               f.timelines, f.insight, createdAt)
  }

  function Fields(s: Simulation): SimulationFields
  {
    SimulationFields(s.decision, s.decisionYear, s.decisionSummary, s.yearsToSimulate,
                     s.timelines, s.insight)
  }

  // ---------------------------------------------------------------------------
  // Untrusted input: what `JSON.parse` may yield from a completion.
  // `None` stands for an absent (or null) field.
  // ---------------------------------------------------------------------------

  datatype RawEvent = RawEvent(
    year: Option<int>, title: Option<string>, description: Option<string>,
    mood: Option<string>, moodScore: Option<int>)

  /** An element of an `events` array; reading a field of a `null` element throws. */
  datatype RawEventEntry = NullEvent | EventObject(event: RawEvent)

  /** The `events` field: absent or falsy (read as `[]`), an array, or a truthy
      value that is not an array (on which `.slice(...).map` throws). */
  datatype RawEvents = NoEvents | EventArray(entries: seq<RawEventEntry>) | NotAnArray

  datatype RawTimeline = RawTimeline(
    id: Option<string>, name: Option<string>, emoji: Option<string>,
    description: Option<string>, events: RawEvents, finalSnapshot: Option<FinalSnapshot>)

  /** An element of the `timelines` array; reading a field of a `null` element throws. */
  datatype RawTimelineEntry = NullTimeline | TimelineObject(timeline: RawTimeline)

  /** The top-level reply to a full generation request. `timelines` is `None`
      when the field is absent or not an array. */
  datatype RawResponse = RawResponse(
    decisionYear: Option<int>, decisionSummary: Option<string>,
    timelines: Option<seq<RawTimelineEntry>>, insight: Option<string>)

  /** The top-level reply to a branch request. */
  datatype RawBranch = RawBranch(events: RawEvents, finalSnapshot: Option<FinalSnapshot>)

  /** The outcome of `JSON.parse`: it throws, it yields `null` (on which every
      field access throws), or it yields a value whose fields are read. */
  datatype Parsed<T> = Unparsable | Null | Value(value: T)

  /** The outcome of one call to the text completion service: a failed request
      (non-success status, network error, unreadable envelope) or the text of the
      first choice's message (`''` when the envelope has none). */
  datatype Reply = TransportFailure | Completion(content: string)

  // ---------------------------------------------------------------------------
  // JavaScript `a || b` on the two kinds of field that carry defaults: the empty
  // string and the number 0 are falsy and are replaced like a missing field.
  // ---------------------------------------------------------------------------

  function OrText(field: Option<string>, default: string): (r: string)
    ensures r == default <==> (field == None || field.value == "" || field.value == default)
    ensures default != "" ==> r != ""
  {
    if field.Some? && field.value != "" then field.value else default
  }

  function OrNumber(field: Option<int>, default: int): (r: int)
    ensures r == default <==> (field == None || field.value == 0 || field.value == default)
    ensures default != 0 ==> r != 0
  {
    if field.Some? && field.value != 0 then field.value else default
  }

  // ---------------------------------------------------------------------------
  // The default table (src/lib/parallel/api.ts:293-327, 401-433).
  // ---------------------------------------------------------------------------

  const HOPEFUL := "hopeful"
  const DEFAULT_MOOD_SCORE := 50

  /** The title and description a normalized event gets when the reply omits them. */
  datatype EventDefaults = EventDefaults(title: string, description: string)

  const TIMELINE_EVENT_DEFAULTS := EventDefaults("Life Event", "An important moment")
  const BRANCH_EVENT_DEFAULTS := EventDefaults("Event", "An outcome")

  /** `'‚ú®'`, spelled code point by code point as the source file has it. */
  const DEFAULT_EMOJI := "\U{201A}\U{FA}\U{AE}"
  const DEFAULT_TIMELINE_DESCRIPTION := "An alternate path"
  const DEFAULT_SUMMARY := "A life decision"
  const DEFAULT_INSIGHT := "Every choice opens doors we'll never see closed."

  /** `String.fromCharCode(65 + index)`: "A", "B", "C", ... for the timeline at
      `index`. Past the last character below the surrogate range the model
      answers U+FFFD instead. */
  function Letter(index: nat): (r: string)
    ensures |r| == 1
    ensures index < 26 ==> 'A' <= r[0] <= 'Z' && r[0] as int - 'A' as int == index
  {
    if 65 + index < 0xD800 then [(65 + index) as char] else "\U{FFFD}"
  }

  /** Distinct indices get distinct letters (below the surrogate range). */
  lemma LetterInjective(i: nat, j: nat)
    requires 65 + i < 0xD800 && 65 + j < 0xD800 && i != j
    ensures Letter(i) != Letter(j)
  {
    assert Letter(i)[0] != Letter(j)[0];
  }

  /** The snapshot substituted, as a whole, for a missing `finalSnapshot`. */
  function UnknownSnapshot(quote: string): FinalSnapshot
  {
    FinalSnapshot("Unknown", "Unknown", "Unknown", "Unknown", "Unknown", 50, 50, 50, quote)
  }

  const TIMELINE_SNAPSHOT_DEFAULT := UnknownSnapshot("Life is a journey.")
  const BRANCH_SNAPSHOT_DEFAULT := UnknownSnapshot("Every choice matters.")
  const BRANCH_FALLBACK_SNAPSHOT := FinalSnapshot(
    "Unknown", "Unknown", "Unknown", "Your story continues", "Only time will tell",
    50, 50, 50, "Every choice opens new doors.")
  const BRANCH_FALLBACK_DESCRIPTION := "Your different choice led to new outcomes."

  function Min(a: nat, b: nat): nat
  {
    if a < b then a else b
  }

  /** `events[i].year == start + i` for every event: consecutive years from `start`. */
  predicate YearsFrom(events: seq<Event>, start: int)
  {
    forall i :: 0 <= i < |events| ==> events[i].year == start + i
  }
}
