# Parallel — a verified model of the timeline generator and its page state

"Parallel" is a web app. A user describes a past decision. The app asks a language-model service for three alternate life timelines branching from it, one event per year, and shows them side by side. A timeline can then be "rippled": the user picks an event, types a different choice, and every event from that one on is regenerated. Simulations are kept in the browser's `localStorage`.

This project models the core of the app in Dafny:

- `src/lib/parallel/api.ts`. This covers the cleaning of the model's reply before `JSON.parse` (`json_text.dfy`) and the year found in the decision text (`year_extract.dfy`). It covers the offline example simulation (`fallback.dfy`) and the normalization of a parsed reply (`normalize.dfy`). It covers the two generators, `generateTimelines` and `generateBranch` (`generate.dfy`).
- `src/app/page.tsx`. Its pure parts are in `page.dfy`: the ripple splice, the branch-target lookup, the list updates, "Best path" and the example-data check. Its state and handlers are the class `Home.Home` (`home.dfy`).
- `src/lib/parallel/storage.ts`. This is the class `Storage.Store`, whose fields are the two `localStorage` keys (`storage.dfy`).
- The state machines of the branch dialog (`branch_modal.dfy`) and of the decision form (`decision_input.dfy`).
- The score comparison (`compare.dfy`) and the age label of the history list (`history.dfy`).
- Helpers shared by these modules. `text.dfy` holds the JavaScript string operations used: `trim`, `startsWith`, `indexOf`, `includes` and number formatting. `lists.dfy` holds the array operations used: `slice`, `findIndex`, `filter` and the first-maximum `reduce`.
- The entities, the shapes of the untyped JSON the service returns, and the default values. These are in `schema.dfy` and `wrappers.dfy`.

The request to the service, the clock, `Math.random` and `JSON.parse` are not modelled. They are parameters:

- a `Reply` is either a transport failure or the completion text;
- `parse: string -> Parsed<T>` stands for `JSON.parse` and says whether the text was unparsable, `null` or a value;
- `currentYear` stands for the clock;
- `roll(slot, i)` is the random mood-score draw for event `i` of the fallback timeline in slot `slot`;
- fresh ids and timestamps are arguments.

Whatever throws inside the source's `try` blocks shows up as the fallback the `catch` returns. This covers a `null` reply, a `null` timeline and a `null` event.

Where the written design and the code disagree, the model follows the code:

- Ids the service sends are kept; missing ones become "A", "B" and "C" by position. Ids are therefore not forced to A/B/C and can repeat (`Normalize.RepeatedIdsPossible`). A repeated id makes the page's branch lookup land in the wrong timeline (`Page.RepeatedIdMislocates`).
- Events are cut to the horizon but never padded up to it. The offline example has `min(years, 5)` events per timeline, so horizons of 7 and 10 years get 5 (`Fallback.FallbackShortOfLongHorizon`).
- A missing final snapshot is replaced as a whole; a partial one is kept as it is.
- The `decisionYear` the service reports is trusted. Events are dated from the year found in the decision text (or the current year).
- The branch generator's fallback and the branch dialog's fallback differ. The dialog's fallback is never reached, because `generateBranch` catches every failure itself.

## Model

| member | source | states |
|---|---|---|
| Text.TrimStartSpec | src/lib/parallel/api.ts:15 | trimming from the left drops only a whitespace prefix and leaves a non-whitespace first character |
| Text.TrimEndSpec | src/lib/parallel/api.ts:28 | trimming from the right drops only a whitespace suffix and leaves a non-whitespace last character |
| Text.Trim | src/lib/parallel/api.ts:15 | `trim()` never lengthens, and its result is empty or has a non-blank at each end; `Text.TrimSpec` adds that only white space was removed |
| Text.TrimSpec | src/components/parallel/DecisionInput.tsx:24-25 | `trim()` never lengthens; the result is empty or starts and ends with a non-blank; a string already trimmed is kept; the input is the result with only white space before and after it |
| Text.IndexOf | src/lib/parallel/api.ts:31 | `indexOf` gives -1 exactly when the character is absent; otherwise the position of its first occurrence |
| Text.LastIndexOf | src/lib/parallel/api.ts:32 | `lastIndexOf` gives -1 exactly when the character is absent; otherwise the position of its last occurrence |
| Text.IncludesNeedsRoom | src/app/page.tsx:162 | a string shorter than the searched text cannot include it |
| Text.NatToString | src/lib/parallel/api.ts:424 | the decimal rendering is a non-empty digit string whose value is the number |
| Lists.Take | src/lib/parallel/storage.ts:76 | `slice(0, k)` is the prefix of length `min(k, length)` |
| Lists.SliceTo | src/app/page.tsx:229 | `slice(0, k)`, including a negative `k` counted from the end |
| Lists.FindIndex | src/app/page.tsx:202-204 | -1 exactly when no element matches; otherwise the lowest matching index |
| Lists.Filter | src/lib/parallel/storage.ts:103 | every element kept matches and comes from the list; every matching element is kept |
| Lists.FilterAppend | src/lib/parallel/storage.ts:103 | filtering a concatenation is the concatenation of the filtered parts, so the kept elements stay in order |
| Lists.FilterAround | src/lib/parallel/storage.ts:103 | around any one element, that element is kept exactly when it matches and the parts before and after it are filtered in place |
| Lists.FilterMultiplicity | src/lib/parallel/storage.ts:103 | a matching value occurs as often as in the input; a non-matching one does not occur |
| Lists.FilterKeepsAll | src/app/page.tsx:189 | filtering is the identity exactly when every element matches |
| Lists.FirstMaxIndex | src/app/page.tsx:82-84 | a left `reduce` with strict `>` picks a maximum; every earlier element is strictly smaller |
| Schema.OrText | src/lib/parallel/api.ts:293-296 | `field \|\| default` keeps a non-empty string and replaces a missing or empty one |
| Schema.OrNumber | src/lib/parallel/api.ts:177 | `field \|\| default` keeps a non-zero number and replaces a missing or zero one |
| Schema.WithIdentity | src/lib/parallel/storage.ts:67-71 | a saved simulation is the given fields plus the new id and timestamp |
| Schema.Letter | src/lib/parallel/api.ts:293 | `String.fromCharCode(65 + idx)` is the single letter at position `idx` of the alphabet |
| Schema.LetterInjective | src/lib/parallel/api.ts:293-294 | different slots get different default letters |
| JsonText.StripFences | src/lib/parallel/api.ts:18-26 | removing the code fences never lengthens the text; unfenced text is kept; a "```json" block or a plain "```" block loses exactly its two fences |
| JsonText.BraceSpanSpec | src/lib/parallel/api.ts:31-36 | without both braces the text is kept; a `{` after the last `}` leaves nothing; otherwise the cut runs from the first `{` to the last `}` |
| JsonText.SpanBetweenSpec | src/lib/parallel/api.ts:34-36 | the slice between the two found braces opens with `{` and closes with `}` |
| JsonText.Cleaned | src/lib/parallel/api.ts:14-36 | the text handed to `JSON.parse` is never longer than the reply; `JsonText.CleanedRecoversObject` states what it recovers |
| JsonText.CleanJsonText | src/lib/parallel/api.ts:14-36 | the step-by-step reassignment of `cleaned` computes the cleaned text |
| JsonText.RemoveFences | src/lib/parallel/api.ts:18-26 | the fence-stripping branches compute the fence-free text |
| JsonText.CutToBraces | src/lib/parallel/api.ts:31-36 | the brace cut computes the span from the first `{` to the last `}` |
| JsonText.CleanedRecoversObject | src/lib/parallel/api.ts:14-36 | an object wrapped in blanks, fences and prose is recovered exactly |
| JsonText.CleanedBareObject | src/lib/parallel/api.ts:14-36 | a bare object text is passed to the parser unchanged |
| JsonText.CleanedFencedObject | src/lib/parallel/api.ts:18-26 | an object inside a fenced JSON block is recovered exactly |
| JsonText.BraceSpanOfWrapped | src/lib/parallel/api.ts:31-36 | text around a braced object that has no braces itself is cut off |
| YearExtract.FirstAccepted | src/lib/parallel/api.ts:156-164 | finds the earliest position holding an accepted year token, or none |
| YearExtract.ExtractYear | src/lib/parallel/api.ts:153-168 | an extracted year lies in 1990 through next year |
| YearExtract.ExtractYearIsFirstToken | src/lib/parallel/api.ts:156-164 | the result is the first whole-word 19xx/20xx token within range; there is none exactly when no token qualifies |
| YearExtract.ExtractYearNeedsWordBoundary | src/lib/parallel/api.ts:156 | digits glued to a letter are not a year token (`\b`) |
| Fallback.Pool | src/lib/parallel/api.ts:50-72 | each archetype has five fully filled templates |
| Fallback.BaseYear | src/lib/parallel/api.ts:48 | the base year is the start year given, else the current year |
| Fallback.FallbackEvents | src/lib/parallel/api.ts:74-83 | `min(years, 5)` events dated consecutively from the base year, each scored from 40 to 79 |
| Fallback.FallbackTimeline | src/lib/parallel/api.ts:91-146 | the slot's letter as id and `min(years, 5)` consecutively dated events; `Fallback.FallbackTimelineShape` adds the templates |
| Fallback.FallbackSimulation | src/lib/parallel/api.ts:47-149 | three timelines, decision and horizon kept, dated from the base year, closing with the fallback insight |
| Fallback.FallbackTimelineShape | src/lib/parallel/api.ts:74-83 | a fallback timeline has the slot's letter, the first `min(years, 5)` templates in order, consecutive years and scores in [40, 79] |
| Fallback.FallbackSimulationShape | src/lib/parallel/api.ts:85-149 | the example has timelines A, B and C, keeps decision and horizon, and dates every event from its decision year |
| Fallback.FallbackShortOfLongHorizon | src/lib/parallel/api.ts:76 | a 10-year horizon yields only 5 fallback events |
| Normalize.NormalizeEvent | src/lib/parallel/api.ts:297-304 | the year is forced by position; each other field is kept when truthy and defaulted otherwise |
| Normalize.NormalizeEvents | src/lib/parallel/api.ts:297-304 | fails exactly for a non-array or a `null` event in the window; otherwise at most `n` events, dated consecutively, each normalized |
| Normalize.SnapshotOr | src/lib/parallel/api.ts:305-315 | a present snapshot is kept whole; a missing one is replaced by the default |
| Normalize.NormalizeTimeline | src/lib/parallel/api.ts:292-316 | fails exactly for a `null` entry or failing events; otherwise all fields are non-empty, a truthy id is kept, a missing id is the slot's letter, and events are dated consecutively |
| Normalize.NormalizeSettled | src/lib/parallel/api.ts:284-316 | a complete fallback timeline passes through normalization unchanged |
| Normalize.Padded | src/lib/parallel/api.ts:284-287 | padding keeps the reply's entries and fills each missing slot `k` with fallback timeline `k` |
| Normalize.PadTimelines | src/lib/parallel/api.ts:283-287 | the `while` loop computes the padded list |
| Normalize.NormalizeAll | src/lib/parallel/api.ts:292 | all entries normalize, in order, or the whole map fails |
| Normalize.NormalizeResponse | src/lib/parallel/api.ts:277-279 | a reply without timelines yields no simulation |
| Normalize.NormalizeResponseShape | src/lib/parallel/api.ts:283-329 | a normalized reply has 3 timelines with consecutive years; its own slots come from the reply and the rest from the fallback |
| Normalize.NormalizeResponseSome | src/lib/parallel/api.ts:283-329 | normalization succeeds when every entry it reaches normalizes |
| Normalize.ExtraTimelinesIgnored | src/lib/parallel/api.ts:288 | timelines beyond the third do not affect the result |
| Normalize.PaddedSlotsAreFallback | src/lib/parallel/api.ts:284-287 | padded slots hold the fallback timelines unchanged |
| Normalize.TakenEventCount | src/lib/parallel/api.ts:297 | a timeline with at least `n` events gets exactly `n` |
| Normalize.RepeatedIdsPossible | src/lib/parallel/api.ts:284-293 | a single reply timeline with id "B" produces two timelines with id "B" |
| Generate.StartYear | src/lib/parallel/api.ts:176-177 | the start year is the extracted year, else the current year |
| Generate.FallbackBaseIsStartYear | src/lib/parallel/api.ts:333-334 | both ways of building the fallback date it from the start year |
| Generate.FallbackSettled | src/lib/parallel/api.ts:284-287 | every fallback timeline is already in normalized form |
| Generate.Generated | src/lib/parallel/api.ts:170-336 | three timelines, with the decision and horizon kept; `Generate.GeneratedShape` adds the dating and the horizon bound |
| Generate.GeneratedShape | src/lib/parallel/api.ts:170-336 | every outcome has 3 timelines, keeps decision and horizon, dates events from the start year and stays within the horizon |
| Generate.FailuresFallBack | src/lib/parallel/api.ts:252-279 | a failed request, an unreadable reply or no timelines each yield the fallback simulation |
| Generate.GenerateTimelines | src/lib/parallel/api.ts:170-336 | the method returns the specified outcome |
| Generate.TryGenerate | src/lib/parallel/api.ts:252-272 | each early failure returns the fallback; otherwise the normalized reply |
| Generate.NormalizeOrFallBack | src/lib/parallel/api.ts:277-329 | the normalized reply, or the fallback when it cannot be normalized |
| Generate.BranchFallback | src/lib/parallel/api.ts:418-435 | exactly `count` events dated from the event's year, with the fixed fallback snapshot; `Generate.BranchFallbackShape` adds the titles and scores |
| Generate.BranchFallbackShape | src/lib/parallel/api.ts:418-435 | `count` events dated from the event's year; the first is titled with the choice's first 30 characters; then "New Path 2", "New Path 3", …; hopeful at 50 |
| Generate.BranchOutcome | src/lib/parallel/api.ts:394-435 | the branch's events are dated from the event's year and number at most `count` |
| Generate.BranchOutcomeShape | src/lib/parallel/api.ts:338-437 | a branch is dated from the event's year with at most `count` events; an unreadable reply, or events that cannot be normalized, give the fallback |
| Generate.GenerateBranch | src/lib/parallel/api.ts:394-416 | the method returns the specified branch |
| Page.SpliceTimeline | src/app/page.tsx:225-237 | the ripple keeps the timeline's identity, installs the new snapshot, and replaces the events from the index on |
| Page.SpliceTimelines | src/app/page.tsx:225-237 | only the chosen timeline changes |
| Page.ApplyRipple | src/app/page.tsx:240-243 | only the timelines of the simulation change |
| Page.RippleKeepsShape | src/app/page.tsx:225-237 | a branch of the requested length keeps the timeline's length and consecutive years |
| Page.RippleAtMinusOneDropsLast | src/app/page.tsx:229-230 | an event index of -1 drops the timeline's last event |
| Page.LocateBranchTarget | src/app/page.tsx:199-204 | the first timeline with the id, and in it the first event with the same year and title (-1 if none); no target when the id is absent |
| Page.LocateFindsClickedEvent | src/app/page.tsx:199-204 | with distinct ids, clicking event `j` of timeline `k` locates exactly `(k, j)` |
| Page.RepeatedIdMislocates | src/app/page.tsx:202-204 | with a repeated id, a click in the second timeline locates the first timeline with event index -1 |
| Page.AfterGenerate | src/app/page.tsx:159 | the new simulation comes first, followed by the earlier history with its id deleted |
| Page.AfterGenerateFreshId | src/app/page.tsx:159 | a simulation with a new id goes in front of the unchanged history |
| Page.AfterGenerateMovesToFront | src/app/page.tsx:159 | a simulation whose id one entry already carries replaces that entry at the front; the other entries keep their order |
| Page.WithoutId | src/app/page.tsx:189 | removes exactly the entries with the id |
| Page.WithoutAbsentId | src/app/page.tsx:189 | deleting an absent id changes nothing |
| Page.WithoutIdAround | src/app/page.tsx:189 | around any entry, that entry is kept exactly when its id differs and the entries before and after it are filtered where they stand |
| Page.WithoutUniqueId | src/app/page.tsx:189 | deleting the one entry with the id removes exactly it and keeps the others in order |
| Page.WithoutIdMultiplicity | src/app/page.tsx:189 | every entry with another id occurs as often as before; entries with the id are gone |
| Page.ReplaceById | src/app/page.tsx:248-250 | every entry with the id is replaced; the others are kept; the length is unchanged |
| Page.BestPath | src/app/page.tsx:82-84 | "Best path" is the first timeline of greatest happiness |
| Page.LooksLikeExampleAsWritten | src/app/page.tsx:162 | the optional chain holds only when there is a first timeline with a first event, whose title must include "Life Event" |
| Page.ExampleCheckMissesFallback | src/app/page.tsx:162 | the check as written never flags the offline example |
| Page.ExampleCheckFlagsUntitledReply | src/app/page.tsx:162 | the check as written flags a reply whose first event merely lacked a title |
| Page.LooksLikeExample | src/app/page.tsx:162 | the corrected check never fires on the normalizer's default insight, so a reply that merely lacks an insight is not flagged |
| Page.ExampleCheckFlagsFallback | src/app/page.tsx:162 | the corrected check flags every offline example |
| Storage.Prepend20 | src/lib/parallel/storage.ts:66-77 | the new simulation comes first; the list is cut to 20 by dropping the oldest |
| Storage.FirstWithId | src/lib/parallel/storage.ts:110 | the first entry with the id, or none exactly when no entry has it |
| Storage.BranchesOf | src/lib/parallel/storage.ts:141 | a simulation's branches, empty when it has none |
| Storage.AppendBranch | src/lib/parallel/storage.ts:125-129 | appends to this simulation's list only, creating the list when absent |
| Storage.Store.constructor | src/lib/parallel/storage.ts:52-53 | the store holds the two keys as found |
| Storage.Store.Simulations | src/lib/parallel/storage.ts:83-95 | an absent or unreadable key reads as the empty list |
| Storage.Store.Branches | src/lib/parallel/storage.ts:145-155 | an absent or unreadable key reads as the empty map |
| Storage.Store.SaveSimulation | src/lib/parallel/storage.ts:61-80 | writes the prepended and truncated list, returns the saved simulation and keeps at most 20 |
| Storage.Store.DeleteSimulation | src/lib/parallel/storage.ts:99-105 | writes the list without the id and keeps the bound |
| Storage.Store.SimulationById | src/lib/parallel/storage.ts:108-111 | the first stored simulation with the id; none exactly when no stored entry has it |
| Storage.Store.SaveBranchEvent | src/lib/parallel/storage.ts:114-134 | appends the new branch record under the simulation and leaves the simulations untouched |
| Storage.Store.BranchesForSimulation | src/lib/parallel/storage.ts:137-142 | the simulation's stored branches, or the empty list when it has none |
| Storage.Store.WriteSimulations | src/app/page.tsx:252 | overwrites the simulations key only |
| Storage.DeleteAbsentIsNoOp | src/lib/parallel/storage.ts:103 | deleting an id no entry carries keeps the list |
| Home.Home.constructor | src/app/page.tsx:123-135 | nothing is selected and the history is read from storage |
| Home.Home.HandleGenerate | src/app/page.tsx:143-178 | the generated simulation is saved, shown and listed first; the notice follows the corrected check |
| Home.Home.Show | src/app/page.tsx:150-164 | saves, shows and lists the given result and keeps the page invariant |
| Home.Home.HandleLoad | src/app/page.tsx:181-184 | shows the chosen simulation |
| Home.Home.HandleDelete | src/app/page.tsx:187-196 | removes the id from storage and history and clears the screen if it was shown |
| Home.Home.HandleBranch | src/app/page.tsx:199-211 | opens the modal on the located target; nothing changes without a simulation or a matching timeline |
| Home.Home.HandleCloseBranchModal | src/app/page.tsx:214-218 | closes the modal, clears the selection and keeps the indices |
| Home.Home.HandleRippleChange | src/app/page.tsx:221-256 | the shown simulation is rippled; the stored copies with its id are replaced and the history becomes the stored list |
| Home.NoticeOnFallback | src/app/page.tsx:162-166 | a failed request always brings up the notice under the corrected check |
| BranchModal.EventsToChange | src/components/parallel/BranchModal.tsx:99 | the number of events from the clicked one to the end |
| BranchModal.ModalFallback | src/components/parallel/BranchModal.tsx:62-76 | exactly `count` events dated from the event's year; `BranchModal.ModalFallbackShape` adds the titles |
| BranchModal.ModalFallbackShape | src/components/parallel/BranchModal.tsx:62-76 | `count` events: "Different Choice" carrying the typed text, then "New Path 1", "New Path 2", …; hopeful at 50 |
| BranchModal.FallbacksNumberDifferently | src/components/parallel/BranchModal.tsx:67 | the dialog's and the generator's fallbacks number the second event differently |
| BranchModal.BranchModal.constructor | src/components/parallel/BranchModal.tsx:37-40 | the dialog starts empty and idle |
| BranchModal.BranchModal.SetAlternateChoice | src/components/parallel/BranchModal.tsx:160 | any text is accepted |
| BranchModal.BranchModal.HandleRipple | src/components/parallel/BranchModal.tsx:42-80 | no effect without an event, a timeline or a non-blank choice; otherwise the preview is the branch for the trimmed choice and the remaining event count |
| BranchModal.BranchModal.HandleApply | src/components/parallel/BranchModal.tsx:82-87 | with a preview, an event and a snapshot, the ripple is requested with the untrimmed choice and the dialog is cleared; otherwise nothing happens |
| BranchModal.BranchModal.HandleClose | src/components/parallel/BranchModal.tsx:89-94 | clears the choice and the preview |
| BranchModal.UnreadableBranchKeepsTimeline | src/components/parallel/BranchModal.tsx:48-55 | a fallback branch from a located event keeps the timeline's length and consecutive years |
| DecisionInput.ExamplesFit | src/components/parallel/DecisionInput.tsx:6-11 | every example fits the 500-character cap |
| DecisionInput.DecisionInput.constructor | src/components/parallel/DecisionInput.tsx:19-20 | starts empty with a 5-year horizon |
| DecisionInput.DecisionInput.OnChange | src/components/parallel/DecisionInput.tsx:69 | the text is cut to its first 500 characters |
| DecisionInput.DecisionInput.ExampleClick | src/components/parallel/DecisionInput.tsx:29-31 | the example replaces the text and keeps the invariant |
| DecisionInput.DecisionInput.SelectYears | src/components/parallel/DecisionInput.tsx:105-109 | selects an offered horizon |
| DecisionInput.DecisionInput.HandleSubmit | src/components/parallel/DecisionInput.tsx:23-27 | submits exactly when not loading and not blank; the trimmed text is non-blank, within the cap, and paired with an offered horizon |
| Compare.Overall | src/components/parallel/CompareSection.tsx:25-27 | the rounded mean lies within a third of the exact mean |
| Compare.OverallIsNearest | src/components/parallel/CompareSection.tsx:25-27 | that integer is unique |
| Compare.OverallInScale | src/components/parallel/CompareSection.tsx:25-27 | scores from 0 to 100 average to a score from 0 to 100 |
| Compare.OverallMonotone | src/components/parallel/CompareSection.tsx:25-27 | raising a score never lowers the average |
| Compare.Row | src/components/parallel/CompareSection.tsx:18-28 | a row copies the timeline's identity and scores, with their rounded average |
| Compare.Scores | src/components/parallel/CompareSection.tsx:18-28 | one row per timeline, in order |
| Compare.BestOverall | src/components/parallel/CompareSection.tsx:31-33 | the first row with the greatest average |
| Compare.BestOverallDiffersFromBestPath | src/components/parallel/CompareSection.tsx:31-33 | "best overall" and "Best path" can name different timelines |
| History.Classify | src/components/parallel/History.tsx:13-25 | each bucket's count is the floor of the elapsed time in its unit and lies within that unit's range; future and unparsable dates are handled |
| History.ClassifyMonotone | src/components/parallel/History.tsx:21-25 | older timestamps never get a younger bucket |
| History.RenderDeterminesAge | src/components/parallel/History.tsx:21-24 | within a week the label determines the bucket and its count |
| History.FormatDate | src/components/parallel/History.tsx:13-27 | an unparsable date or one a week old or more shows the locale's date; under a minute, or in the future, shows "Just now" |

## Left out

- The request to the service: building the prompt, `fetch`, status codes and reading the response envelope. A `Reply` parameter stands for them.
- `JSON.parse`: it is the `parse` parameter. The only fields modelled are the ones the code reads. A field of the wrong type, such as a number where a string is expected or a truthy non-array `timelines`, is not represented. A partially filled snapshot object is also not represented.
- The clock, `Math.random`, `generateId` and `toISOString`: these are parameters. The `id` and `createdAt` of the offline example are not modelled, because saving overwrites them.
- `typeof window === 'undefined'` (server rendering) in storage.ts is left out.
- Stored text that parses to something other than a list or map is left out. So is a `localStorage` write that throws.
- Async scheduling is left out: each handler runs to completion.
- Presentation is left out: toasts, scrolling, animation, colours, copying the share text, `isFocused`, and the loading flag of the page.
- `Home.Home.HandleGenerate`: it returns the corrected example-data decision. The decision as written is `Page.LooksLikeExampleAsWritten` (see Findings).
- `BranchModal.BranchModal.HandleRipple`: it requires an event index no greater than the timeline's length. The page only passes `findIndex` results, which are at least -1, so the branch count is positive. A negative count is not modelled.
- `BranchModal.ModalFallback`: it is modelled, but no method takes it. `generateBranch` never throws, so that `catch` is dead code.
- `Schema.Letter`: past `idx = 55252` it yields U+FFFD. JavaScript would give a lone surrogate there. Only `idx` 0–2 occur.
- `DecisionInput.DecisionInput.OnChange`: the 500 cap counts Unicode scalar values. JavaScript counts UTF-16 code units.
- `Generate.BranchFallback`: the first title keeps the choice's first 30 Unicode scalar values. `substring(0, 30)` counts UTF-16 code units, so a choice with characters outside the Basic Multilingual Plane gets a shorter title in JavaScript, possibly ending in half a surrogate pair. `Generate.BranchFallbackShape` states the scalar-value cut.
- `Compare.Overall`: scores are integers. The service could send fractional scores, which `Math.round` would handle differently.
- `History.FormatDate`: the locale's month-day text for dates a week or more old is a parameter.
- `storage.ts`'s `saveBranchEvent` is modelled as `Storage.Store.SaveBranchEvent`. No page handler calls it.

## Findings

| source | as written | input that shows it | evidently intended | confidence | as-written member | corrected member |
|---|---|---|---|---|---|---|
| src/app/page.tsx:162 | the "AI service unavailable" notice appears when the first event title includes "Life Event" | any failed request: the offline example's first title is "The Fall", so no notice appears; a real reply whose first event had no title does get the notice | show the notice whenever the offline example is returned | not executed | Page.ExampleCheckMissesFallback | Page.ExampleCheckFlagsFallback |
