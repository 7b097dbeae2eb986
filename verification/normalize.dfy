/**
 * Normalization of a parsed reply (generateTimelines, src/lib/parallel/api.ts:277-329,
 * and the event mapping of generateBranch, api.ts:401-414): the timeline array is
 * padded with fallback timelines to three entries and cut to three, each field
 * that is missing or falsy gets its default, and every event year is forced to
 * `startYear + i` whatever the reply said.
 *
 * A field access that throws a TypeError inside the source's `try` block (a
 * `null` timeline or event, a truthy `events` value that is not an array) makes
 * the source fall back to the offline simulation; here the normalizer answers
 * `None` for it.
 */
module Normalize {
  import opened Wrappers
  import opened Schema
  import opened Text
  import opened Lists

  /** One element of `events.slice(0, n).map((e, i) => ...)`: the year is forced,
      every other field is kept when truthy and defaulted otherwise. */
  function NormalizeEvent(e: RawEvent, year: int, defaults: EventDefaults): (ev: Event)
    ensures ev.year == year
    ensures e.title.Some? && e.title.value != "" ==> ev.title == e.title.value
    ensures e.title.None? || e.title.value == "" ==> ev.title == defaults.title
    ensures e.description.Some? && e.description.value != "" ==> ev.description == e.description.value
    ensures e.description.None? || e.description.value == "" ==> ev.description == defaults.description
    ensures e.mood.Some? && e.mood.value != "" ==> ev.mood == e.mood.value
    ensures e.mood.None? || e.mood.value == "" ==> ev.mood == HOPEFUL
    ensures e.moodScore.Some? && e.moodScore.value != 0 ==> ev.moodScore == e.moodScore.value
    ensures e.moodScore.None? || e.moodScore.value == 0 ==> ev.moodScore == DEFAULT_MOOD_SCORE
  {
    Event(year, OrText(e.title, defaults.title), OrText(e.description, defaults.description),
          OrText(e.mood, HOPEFUL), OrNumber(e.moodScore, DEFAULT_MOOD_SCORE))
  }

  /** The entries the map reads: `(events || []).slice(0, n)`. */
  function Window(raw: RawEvents, n: nat): (w: seq<RawEventEntry>)
    requires !raw.NotAnArray?
    ensures raw.NoEvents? ==> w == []
    ensures raw.EventArray? ==> w == Take(raw.entries, n)
  {
    if raw.EventArray? then Take(raw.entries, n) else []
  }

  /** `(events || []).slice(0, n).map(...)`, or `None` where the source throws. */
  function NormalizeEvents(raw: RawEvents, start: int, n: nat, defaults: EventDefaults): (r: Option<seq<Event>>)
    ensures r.None? <==> raw.NotAnArray? || NullEvent in Window(raw, n)
    ensures r.Some? ==> |r.value| == |Window(raw, n)| <= n && YearsFrom(r.value, start)
    ensures r.Some? ==> forall i :: 0 <= i < |r.value| ==>
              Window(raw, n)[i].EventObject? && r.value[i] == NormalizeEvent(Window(raw, n)[i].event, start + i, defaults)
  {
    if raw.NotAnArray? then None
    else
      var w := Window(raw, n);
      if NullEvent in w then None
      else Some(seq(|w|, i requires 0 <= i < |w| => NormalizeEvent(w[i].event, start + i, defaults)))
  }

  /** `t.finalSnapshot || {...}`: the default replaces a missing snapshot as a whole. */
  function SnapshotOr(snapshot: Option<FinalSnapshot>, default: FinalSnapshot): (s: FinalSnapshot)
    ensures snapshot.Some? ==> s == snapshot.value
    ensures snapshot.None? ==> s == default
  {
    if snapshot.Some? then snapshot.value else default
  }

  const TIMELINE_NAME_PREFIX := "Timeline "

  /** The map callback of api.ts:292-316 for the entry at `idx`. */
  function NormalizeTimeline(entry: RawTimelineEntry, idx: nat, startYear: int, n: nat): (r: Option<Timeline>)
    ensures r.None? <==> entry.NullTimeline? || NormalizeEvents(entry.timeline.events, startYear, n, TIMELINE_EVENT_DEFAULTS).None?
    ensures r.Some? ==> YearsFrom(r.value.events, startYear) && |r.value.events| <= n
    ensures r.Some? ==> r.value.id != "" && r.value.name != "" && r.value.emoji != "" && r.value.description != ""
    ensures r.Some? && (entry.timeline.id.None? || entry.timeline.id.value == "") ==> r.value.id == Letter(idx)
    ensures r.Some? && entry.timeline.id.Some? && entry.timeline.id.value != "" ==> r.value.id == entry.timeline.id.value
    ensures r.Some? ==> r.value.finalSnapshot == SnapshotOr(entry.timeline.finalSnapshot, TIMELINE_SNAPSHOT_DEFAULT)
  {
    match entry
    case NullTimeline => None
    case TimelineObject(t) =>
      match NormalizeEvents(t.events, startYear, n, TIMELINE_EVENT_DEFAULTS)
      case None => None
      case Some(events) =>
        var letter := Letter(idx);
        Some(Timeline(OrText(t.id, letter), OrText(t.name, TIMELINE_NAME_PREFIX + letter),
                      OrText(t.emoji, DEFAULT_EMOJI), OrText(t.description, DEFAULT_TIMELINE_DESCRIPTION),
                      events, SnapshotOr(t.finalSnapshot, TIMELINE_SNAPSHOT_DEFAULT)))
  }

  /** A complete timeline seen as the untyped object the pad loop pushes. */
  function ToRaw(t: Timeline): RawTimelineEntry
  {
    TimelineObject(RawTimeline(Some(t.id), Some(t.name), Some(t.emoji), Some(t.description),
      EventArray(seq(|t.events|, i requires 0 <= i < |t.events| =>
        EventObject(RawEvent(Some(t.events[i].year), Some(t.events[i].title), Some(t.events[i].description),
                             Some(t.events[i].mood), Some(t.events[i].moodScore))))),
      Some(t.finalSnapshot)))
  }

  /** A timeline every field of which is truthy, dated from `start`: one the
      normalizer leaves exactly as it is. */
  predicate Settled(t: Timeline, start: int, n: nat)
  {
    && t.id != "" && t.name != "" && t.emoji != "" && t.description != ""
    && |t.events| <= n && YearsFrom(t.events, start)
    && forall i :: 0 <= i < |t.events| ==>
         t.events[i].title != "" && t.events[i].description != "" && t.events[i].mood != ""
         && t.events[i].moodScore != 0
  }

  /** Normalizing a settled timeline gives it back unchanged. */
  lemma NormalizeSettled(t: Timeline, idx: nat, start: int, n: nat)
    requires Settled(t, start, n)
    ensures NormalizeTimeline(ToRaw(t), idx, start, n) == Some(t)
  {
    var raw := ToRaw(t).timeline;
    var w := Window(raw.events, n);
    assert w == raw.events.entries;
    assert NullEvent !in w by {
      forall i | 0 <= i < |w| ensures w[i] != NullEvent { }
    }
    var events := NormalizeEvents(raw.events, start, n, TIMELINE_EVENT_DEFAULTS).value;
    assert events == t.events by {
      forall i | 0 <= i < |events| ensures events[i] == t.events[i] { }
    }
  }

  /** The array after `while (timelines.length < 3) timelines.push(...)`, where
      `fallback` is `generateFallbackTimelines(decision, n, startYear).timelines`:
      the step that finds `k` entries pushes `fallback[k]`. */
  function Padded(entries: seq<RawTimelineEntry>, fallback: seq<Timeline>): (r: seq<RawTimelineEntry>)
    requires |fallback| == 3
    ensures |r| == if |entries| < 3 then 3 else |entries|
    ensures r[..|entries|] == entries
    ensures forall k :: |entries| <= k < 3 ==> r[k] == ToRaw(fallback[k])
  {
    if |entries| < 3 then
      entries + seq(3 - |entries|, i requires 0 <= i < 3 - |entries| => ToRaw(fallback[|entries| + i]))
    else entries
  }

  /** The pad loop of api.ts:283-288, pushing onto the array in place. */
  method PadTimelines(entries: seq<RawTimelineEntry>, fallback: seq<Timeline>) returns (timelines: seq<RawTimelineEntry>)
    requires |fallback| == 3
    ensures timelines == Padded(entries, fallback)
  {
    timelines := entries;
    while |timelines| < 3
      invariant |entries| <= |timelines|
      invariant |timelines| <= 3 || timelines == entries
      invariant timelines[..|entries|] == entries
      invariant forall k :: |entries| <= k < |timelines| ==> timelines[k] == ToRaw(fallback[k])
      decreases 3 - |timelines|
    {
      timelines := timelines + [ToRaw(fallback[|timelines|])];
    }
    ghost var expected := Padded(entries, fallback);
    assert |timelines| == |expected|;
    assert forall k :: 0 <= k < |timelines| ==> timelines[k] == expected[k] by {
      forall k | 0 <= k < |timelines| ensures timelines[k] == expected[k] {
        if k < |entries| {
          assert timelines[k] == timelines[..|entries|][k];
          assert expected[k] == expected[..|entries|][k];
        }
      }
    }
  }

  /** `timelines.slice(0, 3).map(...)`, `None` as soon as one entry throws. */
  function NormalizeAll(entries: seq<RawTimelineEntry>, startYear: int, n: nat): (r: Option<seq<Timeline>>)
    requires |entries| <= 3
    ensures r.Some? ==> |r.value| == |entries|
    ensures r.Some? ==> forall k :: 0 <= k < |entries| ==> NormalizeTimeline(entries[k], k, startYear, n) == Some(r.value[k])
    ensures r.None? ==> exists k :: 0 <= k < |entries| && NormalizeTimeline(entries[k], k, startYear, n).None?
  {
    if exists k :: 0 <= k < |entries| && NormalizeTimeline(entries[k], k, startYear, n).None? then None
    else Some(seq(|entries|, k requires 0 <= k < |entries| => NormalizeTimeline(entries[k], k, startYear, n).value))
  }

  /** What `generateTimelines` returns from a parsed reply (api.ts:277-329), or
      `None` where it falls back to the offline simulation instead. */
  function NormalizeResponse(raw: RawResponse, decision: string, n: nat, startYear: int,
                             fallback: seq<Timeline>): (r: Option<SimulationFields>)
    requires |fallback| == 3
    ensures raw.timelines.None? || raw.timelines.value == [] ==> r.None?
  {
    if raw.timelines.None? || |raw.timelines.value| == 0 then None
    else
      var padded := Padded(raw.timelines.value, fallback);
      match NormalizeAll(Take(padded, 3), startYear, n)
      case None => None
      case Some(timelines) =>
        Some(SimulationFields(decision, OrNumber(raw.decisionYear, startYear),
                              OrText(raw.decisionSummary, DEFAULT_SUMMARY), n, timelines,
                              OrText(raw.insight, DEFAULT_INSIGHT)))
  }

  /** A normalized reply has exactly three timelines: the first ones from the
      reply, the rest from the fallback at the same positions; every one is
      dated year by year from `startYear` and no longer than the horizon. */
  lemma NormalizeResponseShape(raw: RawResponse, decision: string, n: nat, startYear: int, fallback: seq<Timeline>)
    requires |fallback| == 3
    ensures var r := NormalizeResponse(raw, decision, n, startYear, fallback);
      r.Some? ==>
        && |r.value.timelines| == 3
        && r.value.decision == decision && r.value.yearsToSimulate == n
        && r.value.decisionYear == OrNumber(raw.decisionYear, startYear)
        && (forall k :: 0 <= k < 3 ==>
              YearsFrom(r.value.timelines[k].events, startYear) && |r.value.timelines[k].events| <= n)
        && (forall k :: 0 <= k < 3 && k < |raw.timelines.value| ==>
              NormalizeTimeline(raw.timelines.value[k], k, startYear, n) == Some(r.value.timelines[k]))
        && (forall k :: |raw.timelines.value| <= k < 3 ==>
              NormalizeTimeline(ToRaw(fallback[k]), k, startYear, n) == Some(r.value.timelines[k]))
  {
  }

  /** Entries past the third are never read: appending to an array that already
      holds three entries changes nothing. */
  lemma {:induction false} ExtraTimelinesIgnored(raw: RawResponse, more: seq<RawTimelineEntry>, decision: string,
                                                  n: nat, startYear: int, fallback: seq<Timeline>)
    requires |fallback| == 3 && raw.timelines.Some? && |raw.timelines.value| >= 3
    ensures NormalizeResponse(raw.(timelines := Some(raw.timelines.value + more)), decision, n, startYear, fallback)
         == NormalizeResponse(raw, decision, n, startYear, fallback)
  {
    var xs := raw.timelines.value;
    assert Take(Padded(xs + more, fallback), 3) == Take(Padded(xs, fallback), 3) by {
      assert Take(xs + more, 3) == xs[..3];
    }
  }

  /** A short reply is completed by the fallback's own timelines at the missing
      positions, unchanged when they are settled. */
  lemma PaddedSlotsAreFallback(raw: RawResponse, decision: string, n: nat, startYear: int, fallback: seq<Timeline>, k: nat)
    requires |fallback| == 3 && raw.timelines.Some? && |raw.timelines.value| <= k < 3
    requires Settled(fallback[k], startYear, n)
    requires NormalizeResponse(raw, decision, n, startYear, fallback).Some?
    ensures NormalizeResponse(raw, decision, n, startYear, fallback).value.timelines[k] == fallback[k]
  {
    NormalizeResponseShape(raw, decision, n, startYear, fallback);
    NormalizeSettled(fallback[k], k, startYear, n);
  }

  /** A timeline taken from the reply keeps `min(|events|, n)` of its events:
      they are cut, never padded. */
  lemma TakenEventCount(raw: RawResponse, decision: string, n: nat, startYear: int, fallback: seq<Timeline>, k: nat)
    requires |fallback| == 3 && raw.timelines.Some? && k < 3 && k < |raw.timelines.value|
    requires raw.timelines.value[k].TimelineObject? && raw.timelines.value[k].timeline.events.EventArray?
    requires NormalizeResponse(raw, decision, n, startYear, fallback).Some?
    ensures |NormalizeResponse(raw, decision, n, startYear, fallback).value.timelines[k].events|
         == Min(|raw.timelines.value[k].timeline.events.entries|, n)
  {
    NormalizeResponseShape(raw, decision, n, startYear, fallback);
  }

  /** Upstream ids are kept and the pad loop fills by position, so ids can
      repeat: a reply whose single timeline carries the id of the second
      fallback timeline ("B") normalizes to ids "B", "B", "C". */
  lemma RepeatedIdsPossible(entry: RawTimelineEntry, n: nat, startYear: int, fallback: seq<Timeline>)
    requires |fallback| == 3 && forall k :: 0 <= k < 3 ==> Settled(fallback[k], startYear, n)
    requires entry.TimelineObject? && entry.timeline.id == Some(fallback[1].id) && fallback[1].id != ""
    requires NormalizeEvents(entry.timeline.events, startYear, n, TIMELINE_EVENT_DEFAULTS).Some?
    ensures var r := NormalizeResponse(RawResponse(None, None, Some([entry]), None), "", n, startYear, fallback);
            r.Some? && r.value.timelines[0].id == r.value.timelines[1].id == fallback[1].id
  {
    var raw := RawResponse(None, None, Some([entry]), None);
    NormalizeSettled(fallback[1], 1, startYear, n);
    NormalizeSettled(fallback[2], 2, startYear, n);
    NormalizeResponseSome(raw, "", n, startYear, fallback);
    NormalizeResponseShape(raw, "", n, startYear, fallback);
  }

  /** A reply normalizes when every entry the map reaches, its own or padded
      from the fallback, normalizes. */
  lemma NormalizeResponseSome(raw: RawResponse, decision: string, n: nat, startYear: int, fallback: seq<Timeline>)
    requires |fallback| == 3 && raw.timelines.Some? && raw.timelines.value != []
    requires forall k :: 0 <= k < 3 && k < |raw.timelines.value| ==>
               NormalizeTimeline(raw.timelines.value[k], k, startYear, n).Some?
    requires forall k :: |raw.timelines.value| <= k < 3 ==>
               NormalizeTimeline(ToRaw(fallback[k]), k, startYear, n).Some?
    ensures NormalizeResponse(raw, decision, n, startYear, fallback).Some?
  {
    var entries := raw.timelines.value;
    var taken := Take(Padded(entries, fallback), 3);
    forall k | 0 <= k < 3 ensures NormalizeTimeline(taken[k], k, startYear, n).Some? {
      if k < |entries| {
        assert taken[k] == entries[k];
      }
    }
    NormalizeAllSome(taken, startYear, n);
  }

  lemma NormalizeAllSome(entries: seq<RawTimelineEntry>, startYear: int, n: nat)
    requires |entries| <= 3
    requires forall k :: 0 <= k < |entries| ==> NormalizeTimeline(entries[k], k, startYear, n).Some?
    ensures NormalizeAll(entries, startYear, n).Some?
  {
  }
}
