/**
 * The "What if you chose differently?" dialog
 * (src/components/parallel/BranchModal.tsx:28-99). Its own state is the typed
 * alternative, the busy flag and the preview of the regenerated events; the
 * clicked event, its index and its timeline are properties the page passes
 * in, so they are parameters here. The two callbacks become results: applying
 * returns the ripple the page is asked to make, and the page closes its side
 * of the dialog itself.
 */
module BranchModal {
  import opened Wrappers
  import opened Schema
  import opened Text
  import opened Generate
  import opened Page

  /** The arguments of `onRippleChange(timelineIndex, eventIndex, alternateChoice,
      newEvents, newSnapshot)`. */
  datatype RippleRequest = RippleRequest(
    timelineIndex: int, eventIndex: int, alternateChoice: string,
    newEvents: seq<Event>, newSnapshot: FinalSnapshot)

  const DIFFERENT_CHOICE := "Different Choice"

  /** The number of events from the clicked one to the end of the timeline
      (`timeline.events.length - eventIndex`), which the branch replaces. */
  function EventsToChange(t: Timeline, eventIndex: int): (r: int)
    ensures 0 <= eventIndex <= |t.events| ==> r == |t.events[eventIndex..]|
    ensures eventIndex == -1 ==> r == |t.events| + 1
  {
    |t.events| - eventIndex
  }

  /** The events the dialog would substitute if generating the branch threw
      (BranchModal.tsx:62-76): "Different Choice" carrying the typed text, then
      "New Path 1", "New Path 2", ... */
  function ModalFallback(eventYear: int, alternateChoice: string, count: nat): (r: seq<Event>)
    ensures |r| == count && YearsFrom(r, eventYear)
  {
    seq(count, i requires 0 <= i < count =>
      Event(eventYear + i,
            if i == 0 then DIFFERENT_CHOICE else NEW_PATH + NatToString(i),
            if i == 0 then alternateChoice else BRANCH_FALLBACK_DESCRIPTION,
            HOPEFUL, DEFAULT_MOOD_SCORE))
  }

  /** The dialog's fallback: `count` events dated from the event's year, the
      first titled "Different Choice" with the untrimmed typed text as its
      description, the i-th after it "New Path i", all hopeful at 50. It
      differs from the branch generator's own fallback, whose first title is
      the choice itself and whose numbering starts at 2. */
  lemma ModalFallbackShape(eventYear: int, alternateChoice: string, count: nat)
    ensures var r := ModalFallback(eventYear, alternateChoice, count);
      && |r| == count && YearsFrom(r, eventYear)
      && (count > 0 ==> r[0].title == DIFFERENT_CHOICE && r[0].description == alternateChoice)
      && (forall i :: 1 <= i < count ==>
            && r[i].title[..|NEW_PATH|] == NEW_PATH
            && DigitsValue(r[i].title[|NEW_PATH|..]) == i
            && r[i].description == BRANCH_FALLBACK_DESCRIPTION)
      && (forall i :: 0 <= i < count ==> r[i].mood == HOPEFUL && r[i].moodScore == DEFAULT_MOOD_SCORE)
  {
    var r := ModalFallback(eventYear, alternateChoice, count);
    forall i | 1 <= i < count
      ensures r[i].title[..|NEW_PATH|] == NEW_PATH && DigitsValue(r[i].title[|NEW_PATH|..]) == i
    {
      assert r[i].title == NEW_PATH + NatToString(i);
      assert r[i].title[|NEW_PATH|..] == NatToString(i);
    }
  }

  /** The second event of the two fallbacks is numbered differently: "New Path
      1" in the dialog, "New Path 2" in the branch generator. */
  lemma FallbacksNumberDifferently(eventYear: int, choice: string, count: nat)
    requires count >= 2
    ensures ModalFallback(eventYear, choice, count)[1].title != BranchFallback(eventYear, choice, count).0[1].title
  {
    ModalFallbackShape(eventYear, choice, count);
    BranchFallbackShape(eventYear, choice, count);
    var a := ModalFallback(eventYear, choice, count)[1].title;
    var b := BranchFallback(eventYear, choice, count).0[1].title;
    assert DigitsValue(a[|NEW_PATH|..]) == 1;
    assert DigitsValue(b[|NEW_PATH|..]) == 2;
  }

  class BranchModal {
    /** `alternateChoice`, the text in the input */
    var alternateChoice: string
    /** `isGenerating` */
    var isGenerating: bool
    /** `newEvents`, the preview */
    var newEvents: seq<Event>
    /** `newSnapshot` */
    var newSnapshot: Option<FinalSnapshot>

    /** The initial state (BranchModal.tsx:37-40). */
    constructor ()
      ensures alternateChoice == "" && !isGenerating && newEvents == [] && newSnapshot == None
    {
      alternateChoice := "";
      isGenerating := false;
      newEvents := [];
      newSnapshot := None;
    }

    /** Whether the "See the ripple effect" button and the Enter key are live:
        something other than blanks is typed and nothing is being generated. */
    predicate CanRipple()
      reads this
    {
      Trim(alternateChoice) != "" && !isGenerating
    }

    /** The input's `onChange`: any text is accepted. */
    method SetAlternateChoice(text: string)
      modifies this
      ensures alternateChoice == text
      ensures isGenerating == old(isGenerating) && newEvents == old(newEvents) && newSnapshot == old(newSnapshot)
    {
      alternateChoice := text;
    }

    /** `handleRipple()` (BranchModal.tsx:42-80): without an event, a timeline
        or a non-blank choice nothing happens; otherwise the branch for the
        trimmed choice, as many events as the clicked one and those after it,
        becomes the preview. The dialog's own fallback is never taken, because
        the branch generator answers every failure itself. */
    method HandleRipple(event: Option<Event>, eventIndex: int, timeline: Option<Timeline>,
                        reply: Reply, parse: string -> Parsed<RawBranch>)
      requires timeline.Some? ==> eventIndex <= |timeline.value.events|
      modifies this
      ensures alternateChoice == old(alternateChoice)
      ensures event.None? || timeline.None? || Trim(alternateChoice) == "" ==>
                newEvents == old(newEvents) && newSnapshot == old(newSnapshot) && isGenerating == old(isGenerating)
      ensures event.Some? && timeline.Some? && Trim(alternateChoice) != "" ==>
                var count := EventsToChange(timeline.value, eventIndex);
                var (events, snapshot) := BranchOutcome(event.value.year, Trim(alternateChoice), count, reply, parse);
                newEvents == events && newSnapshot == Some(snapshot) && !isGenerating
    {
      var choice := Trim(alternateChoice);
      if event.None? || choice == "" || timeline.None? {
        return;
      }
      isGenerating := true;
      var events, snapshot := GenerateBranch(event.value.year, choice, EventsToChange(timeline.value, eventIndex), reply, parse);
      newEvents := events;
      newSnapshot := Some(snapshot);
      isGenerating := false;
    }

    /** `handleApply()` (BranchModal.tsx:82-87): with a non-empty preview, an
        event and a snapshot, the ripple is requested with the choice as typed
        (untrimmed) and the dialog is cleared; otherwise nothing happens. */
    method HandleApply(event: Option<Event>, eventIndex: int, timelineIndex: int)
      returns (request: Option<RippleRequest>)
      modifies this
      ensures |old(newEvents)| > 0 && event.Some? && old(newSnapshot).Some? ==>
                && request == Some(RippleRequest(timelineIndex, eventIndex, old(alternateChoice),
                                                 old(newEvents), old(newSnapshot).value))
                && alternateChoice == "" && newEvents == [] && newSnapshot == None
                && isGenerating == old(isGenerating)
      ensures !(|old(newEvents)| > 0 && event.Some? && old(newSnapshot).Some?) ==>
                && request == None
                && alternateChoice == old(alternateChoice) && newEvents == old(newEvents)
                && newSnapshot == old(newSnapshot) && isGenerating == old(isGenerating)
    {
      if |newEvents| > 0 && event.Some? && newSnapshot.Some? {
        request := Some(RippleRequest(timelineIndex, eventIndex, alternateChoice, newEvents, newSnapshot.value));
        HandleClose();
      } else {
        request := None;
      }
    }

    /** `handleClose()` (BranchModal.tsx:89-94), before it calls `onClose`. */
    method HandleClose()
      modifies this
      ensures alternateChoice == "" && newEvents == [] && newSnapshot == None
      ensures isGenerating == old(isGenerating)
    {
      alternateChoice := "";
      newEvents := [];
      newSnapshot := None;
    }
  }

  /** A branch generated from an event the page located, when the reply could
      not be used, replaces exactly the events from that one on: the timeline
      keeps its length and its consecutive years. */
  lemma UnreadableBranchKeepsTimeline(t: Timeline, start: int, eventIndex: nat, event: Event, choice: string,
                                      reply: Reply, parse: string -> Parsed<RawBranch>, newSnapshot: FinalSnapshot)
    requires eventIndex < |t.events| && YearsFrom(t.events, start)
    requires SameEvent(t.events[eventIndex], event)
    requires ReadableReply(reply, parse).None?
    ensures var (events, _) := BranchOutcome(event.year, choice, EventsToChange(t, eventIndex), reply, parse);
      var r := SpliceTimeline(t, eventIndex, events, newSnapshot);
      |r.events| == |t.events| && YearsFrom(r.events, start)
  {
    var count := EventsToChange(t, eventIndex);
    BranchOutcomeShape(event.year, choice, count, reply, parse);
    BranchFallbackShape(event.year, choice, count);
    var (events, _) := BranchOutcome(event.year, choice, count, reply, parse);
    RippleKeepsShape(t, start, eventIndex, events, newSnapshot);
  }
}
