/**
 * The two generators of src/lib/parallel/api.ts with the network taken out:
 * `reply` is what the completion request produced and `parse` stands for
 * `JSON.parse`. Every failure inside the source's `try` blocks ends in the
 * corresponding fallback.
 */
module Generate {
  import opened Wrappers
  import opened Schema
  import opened Text
  import opened Lists
  import opened JsonText
  import opened YearExtract
  import opened Fallback
  import opened Normalize

  /** `extractYearFromText(decision) || currentYear` (api.ts:176-177). */
  function StartYear(decision: string, currentYear: int): (y: int)
    ensures ExtractYear(decision, currentYear).Some? ==> y == ExtractYear(decision, currentYear).value
    ensures ExtractYear(decision, currentYear).None? ==> y == currentYear
  {
    OrNumber(ExtractYear(decision, currentYear), currentYear)
  }

  /** The year the fallback dates its events from is the start year, whether the
      fallback is built with `startYear` (api.ts:254, 270, 279) or, in the outer
      `catch`, with `extractedYear || undefined` (api.ts:333-334). */
  lemma FallbackBaseIsStartYear(decision: string, currentYear: int)
    ensures BaseYear(Some(StartYear(decision, currentYear)), currentYear) == StartYear(decision, currentYear)
    ensures BaseYear(ExtractYear(decision, currentYear), currentYear) == StartYear(decision, currentYear)
  {
  }

  /** Every fallback timeline passes through the normalizer unchanged. */
  lemma FallbackSettled(decision: string, n: nat, startYear: int, currentYear: int, roll: (nat, nat) -> Roll, k: nat)
    requires k < 3 && BaseYear(Some(startYear), currentYear) == startYear
    ensures Settled(FallbackSimulation(decision, n, Some(startYear), currentYear, roll).timelines[k], startYear, n)
  {
    FallbackTimelineShape(k, n, startYear, roll);
  }

  /** The parsed reply, when there is one whose fields can be read: a failed
      request, an unparsable text and a `null` all lead to the fallback. */
  function ReadableReply<T>(reply: Reply, parse: string -> Parsed<T>): Option<T>
  {
    if reply.Completion? && parse(Cleaned(reply.content)).Value? then Some(parse(Cleaned(reply.content)).value)
    else None
  }

  /** What the `try` block of `generateTimelines` yields for a given fallback:
      the normalized reply when there is one, the fallback otherwise. */
  function Outcome(decision: string, n: nat, startYear: int, reply: Reply,
                   parse: string -> Parsed<RawResponse>, fallback: SimulationFields): SimulationFields
    requires |fallback.timelines| == 3
  {
    var raw := ReadableReply(reply, parse);
    var normalized := if raw.Some? then NormalizeResponse(raw.value, decision, n, startYear, fallback.timelines) else None;
    if normalized.Some? then normalized.value else fallback
  }

  /** The simulation `generateTimelines` hands back. */
  function Generated(decision: string, n: nat, currentYear: int, reply: Reply,
                     parse: string -> Parsed<RawResponse>, roll: (nat, nat) -> Roll): (r: SimulationFields)
    ensures |r.timelines| == 3 && r.decision == decision && r.yearsToSimulate == n
  {
    var startYear := StartYear(decision, currentYear);
    Outcome(decision, n, startYear, reply, parse, FallbackSimulation(decision, n, Some(startYear), currentYear, roll))
  }

  /** Whichever way generation goes, the result has exactly three timelines,
      each dated year by year from the start year and no longer than the horizon. */
  lemma GeneratedShape(decision: string, n: nat, currentYear: int, reply: Reply,
                       parse: string -> Parsed<RawResponse>, roll: (nat, nat) -> Roll)
    ensures var result := Generated(decision, n, currentYear, reply, parse, roll);
      && |result.timelines| == 3 && result.decision == decision && result.yearsToSimulate == n
      && forall k :: 0 <= k < 3 ==>
           YearsFrom(result.timelines[k].events, StartYear(decision, currentYear))
           && |result.timelines[k].events| <= n
  {
    var startYear := StartYear(decision, currentYear);
    FallbackBaseIsStartYear(decision, currentYear);
    FallbackSimulationShape(decision, n, Some(startYear), currentYear, roll);
    var fallback := FallbackSimulation(decision, n, Some(startYear), currentYear, roll);
    var raw := ReadableReply(reply, parse);
    if raw.Some? {
      NormalizeResponseShape(raw.value, decision, n, startYear, fallback.timelines);
    }
  }

  /** Generation never leaves a failed request, an unreadable reply or a reply
      without timelines unanswered: each yields the fallback simulation. */
  lemma FailuresFallBack(decision: string, n: nat, currentYear: int, reply: Reply,
                         parse: string -> Parsed<RawResponse>, roll: (nat, nat) -> Roll)
    requires || reply.TransportFailure?
             || !parse(Cleaned(reply.content)).Value?
             || parse(Cleaned(reply.content)).value.timelines.None?
             || parse(Cleaned(reply.content)).value.timelines.value == []
    ensures Generated(decision, n, currentYear, reply, parse, roll)
         == FallbackSimulation(decision, n, Some(StartYear(decision, currentYear)), currentYear, roll)
  {
  }

  /** `generateTimelines(decision, n)` (api.ts:170-336). */
  method GenerateTimelines(decision: string, n: nat, currentYear: int, reply: Reply,
                           parse: string -> Parsed<RawResponse>, roll: (nat, nat) -> Roll)
    returns (result: SimulationFields)
    ensures result == Generated(decision, n, currentYear, reply, parse, roll)
  {
    var startYear := StartYear(decision, currentYear);
    var fallback := FallbackSimulation(decision, n, Some(startYear), currentYear, roll);
    result := TryGenerate(decision, n, startYear, reply, parse, fallback);
  }

  /** The steps of api.ts:252-272, each failure returning `fallback`. */
  method TryGenerate(decision: string, n: nat, startYear: int, reply: Reply,
                     parse: string -> Parsed<RawResponse>, fallback: SimulationFields)
    returns (result: SimulationFields)
    requires |fallback.timelines| == 3
    ensures result == Outcome(decision, n, startYear, reply, parse, fallback)
  {
    if reply.TransportFailure? {
      return fallback;
    }
    var cleaned := CleanJsonText(reply.content);
    var parsed := parse(cleaned);
    if !parsed.Value? {
      return fallback;
    }
    result := NormalizeOrFallBack(parsed.value, decision, n, startYear, fallback);
  }

  /** The steps of api.ts:277-329 on a parsed reply. */
  method NormalizeOrFallBack(data: RawResponse, decision: string, n: nat, startYear: int, fallback: SimulationFields)
    returns (result: SimulationFields)
    requires |fallback.timelines| == 3
    ensures var normalized := NormalizeResponse(data, decision, n, startYear, fallback.timelines);
            result == if normalized.Some? then normalized.value else fallback
  {
    if data.timelines.None? || |data.timelines.value| == 0 {
      return fallback;
    }
    var timelines := PadTimelines(data.timelines.value, fallback.timelines);
    timelines := Take(timelines, 3);
    var normalized := NormalizeAll(timelines, startYear, n);
    if normalized.None? {
      return fallback;
    }
    result := SimulationFields(decision, OrNumber(data.decisionYear, startYear),
                               OrText(data.decisionSummary, DEFAULT_SUMMARY), n, normalized.value,
                               OrText(data.insight, DEFAULT_INSIGHT));
  }

  const NEW_PATH := "New Path "
  const CHOICE_TITLE_LENGTH := 30

  /** The `catch` branch of generateBranch (api.ts:418-435). */
  function BranchFallback(eventYear: int, choice: string, count: nat): (r: (seq<Event>, FinalSnapshot))
    ensures |r.0| == count && YearsFrom(r.0, eventYear) && r.1 == BRANCH_FALLBACK_SNAPSHOT
  {
    (seq(count, i requires 0 <= i < count =>
       Event(eventYear + i, if i == 0 then Take(choice, CHOICE_TITLE_LENGTH) else NEW_PATH + NatToString(i + 1),
             BRANCH_FALLBACK_DESCRIPTION, HOPEFUL, DEFAULT_MOOD_SCORE)),
     BRANCH_FALLBACK_SNAPSHOT)
  }

  /** The branch fallback has exactly `count` events dated from the event's year;
      the first is titled with the first 30 characters of the choice, the others
      "New Path 2", "New Path 3", ...; all are hopeful with score 50. */
  lemma BranchFallbackShape(eventYear: int, choice: string, count: nat)
    ensures var (events, snapshot) := BranchFallback(eventYear, choice, count);
      && |events| == count && YearsFrom(events, eventYear)
      && snapshot == BRANCH_FALLBACK_SNAPSHOT
      && (count > 0 ==> events[0].title == choice[..Min(|choice|, 30)])
      && (forall i :: 1 <= i < count ==>
            events[i].title[..|NEW_PATH|] == NEW_PATH && DigitsValue(events[i].title[|NEW_PATH|..]) == i + 1)
      && (forall i :: 0 <= i < count ==> events[i].mood == HOPEFUL && events[i].moodScore == 50)
  {
    var (events, snapshot) := BranchFallback(eventYear, choice, count);
    forall i | 1 <= i < count
      ensures events[i].title[..|NEW_PATH|] == NEW_PATH && DigitsValue(events[i].title[|NEW_PATH|..]) == i + 1
    {
      assert events[i].title == NEW_PATH + NatToString(i + 1);
      assert events[i].title[|NEW_PATH|..] == NatToString(i + 1);
    }
  }

  /** What `generateBranch` resolves to: the reply's events and snapshot when
      they can be read, the fallback branch otherwise. */
  function BranchOutcome(eventYear: int, choice: string, count: nat, reply: Reply,
                         parse: string -> Parsed<RawBranch>): (r: (seq<Event>, FinalSnapshot))
    ensures YearsFrom(r.0, eventYear) && |r.0| <= count
  {
    var raw := ReadableReply(reply, parse);
    var normalized := if raw.Some? then NormalizeEvents(raw.value.events, eventYear, count, BRANCH_EVENT_DEFAULTS) else None;
    if normalized.Some? then (normalized.value, SnapshotOr(raw.value.finalSnapshot, BRANCH_SNAPSHOT_DEFAULT))
    else BranchFallback(eventYear, choice, count)
  }

  /** Either way the branch's events are dated year by year from the event's
      year and there are at most `count` of them; the reply is replaced by the
      fallback branch, with exactly `count` events, when it cannot be read or
      its events cannot be normalized. */
  lemma BranchOutcomeShape(eventYear: int, choice: string, count: nat, reply: Reply, parse: string -> Parsed<RawBranch>)
    ensures var (events, _) := BranchOutcome(eventYear, choice, count, reply, parse);
      YearsFrom(events, eventYear) && |events| <= count
    ensures ReadableReply(reply, parse).None?
            || NormalizeEvents(ReadableReply(reply, parse).value.events, eventYear, count, BRANCH_EVENT_DEFAULTS).None?
            ==> BranchOutcome(eventYear, choice, count, reply, parse) == BranchFallback(eventYear, choice, count)
  {
    BranchFallbackShape(eventYear, choice, count);
  }

  /** `generateBranch(_, eventYear, _, _, choice, count)` (api.ts:338-437). */
  method GenerateBranch(eventYear: int, choice: string, count: nat, reply: Reply, parse: string -> Parsed<RawBranch>)
    returns (events: seq<Event>, snapshot: FinalSnapshot)
    ensures (events, snapshot) == BranchOutcome(eventYear, choice, count, reply, parse)
  {
    if reply.TransportFailure? {
      events, snapshot := BranchFallback(eventYear, choice, count).0, BRANCH_FALLBACK_SNAPSHOT;
      return;
    }
    var cleaned := CleanJsonText(reply.content);
    var parsed := parse(cleaned);
    if !parsed.Value? {
      events, snapshot := BranchFallback(eventYear, choice, count).0, BRANCH_FALLBACK_SNAPSHOT;
      return;
    }
    var normalized := NormalizeEvents(parsed.value.events, eventYear, count, BRANCH_EVENT_DEFAULTS);
    if normalized.None? {
      events, snapshot := BranchFallback(eventYear, choice, count).0, BRANCH_FALLBACK_SNAPSHOT;
      return;
    }
    events := normalized.value;
    snapshot := SnapshotOr(parsed.value.finalSnapshot, BRANCH_SNAPSHOT_DEFAULT);
  }
}
