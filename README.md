# MindHaven core, modelled in Dafny

MindHaven is a mental-health web portal. This project models its logic:

- **the `analyze-mood` edge function.** It checks the request and asks an AI gateway for an assessment of the user's text. It maps gateway failures to HTTP errors, pulls a JSON object out of the reply text, defaults every missing field and guards the final insight.
- **the `useCooldown` hook.** It is a client-side throttle kept in the browser's key-value store: a 30-second cooldown after each analysis, and at most 10 analyses per rolling hour.
- **the journal page (`Dashboard`).** It lists the user's mood logs, edits the text of an entry, deletes an entry, and shows a mood band per entry and the rounded average score.
- **the pledge board (`Community`).** It keeps the pledge list in step with the database's change feed. It also creates pledges, lets the owner toggle a pledge's status, and picks the status badge.
- **the box-breathing page (`Breathing`).** It runs four phases of four seconds, counts down once a second and counts completed cycles.
- **the mood analyzer page (`MoodAnalyzer`).** It guards and starts an analysis, drives the three-step progress indicator, stores the result and saves it to the journal.

## Layout

Each core source file has its own module. Pure logic is modelled as functions, and each page's state as a class.

- **Shared helpers:**
  - `Wrappers` (`Option`, and `FetchResult` for a query's outcome);
  - `JsValues` (JSON values, JavaScript truthiness, `||`, property access);
  - `JsText` (`trim`, `parseInt(s, 10)`, integer `toString`);
  - `Sequences` (`Array.prototype.filter`);
  - `MoodBands` (the two `getMoodLabel` functions).
- **`AnalyzeMood`** and `AnalyzeMoodProperties`. The handler is a chain of functions ending in `Handle`. `Handle` returns the gateway request it would send, if any, and the reply.
- **`Cooldown`** and `CooldownProperties`. The pure parts are the usage log, the cooldown arithmetic, `canAnalyze` and `requestsRemaining`. The class `CooldownHook` holds the store and the hook's three state fields.
- **`Dashboard`.** The list updates and the average are functions. `DashboardPage` holds the page's state.
- **`Community`** and `CommunityProperties`. The change-feed fold, the toggle and the badge are functions. `CommunityPage` holds the page's state.
- **`Breathing`.** `Step` is the one-second tick on a `Timer` value. `BreathingPage` holds the four state fields, and its `Tick` is proved to equal `Step`.
- **`MoodAnalyzer`.** `AnalyzerPage` splits `handleAnalyze` where it awaits the function. `Submit` is the part before the await. `Resolve` runs when the call returns, including its `finally` block. `pending` holds what the suspended call captured: the user and the trimmed text.

## Model choices

- **External calls.** Supabase queries, inserts, updates and deletes, the realtime feed and the gateway call all become inputs: an ok/error flag, the rows returned, or an `Upstream` outcome. The request each method would send is returned as its result.
- **Time.** Time is an explicit `now` in milliseconds. The breathing interval is one call of `Tick` per firing.
- **`JSON.parse`.** It is a function parameter. In the edge function the text it receives always starts with `{`, so a successful parse is an object. The usage-log decoder in the cooldown hook is assumed only to read back what the hook wrote (`ReadsBack`).
- **Numbers.** Numbers are integers.
  - `Math.round(sum / count)` is `(2*sum + count) / (2*count)`, with count > 0.
  - `Math.ceil(a / 1000)` is exact integer ceiling division.
  - `NaN` appears where the code can produce it: an unreadable cooldown end (`JsNumber.NaN`), and the journal average when no entry has a truthy score (`Average.NotANumber`).

Where the code behaves differently from what its prompt and comments suggest, the model follows the code:

- **Whitespace.** The edge function accepts a white-space-only `moodText`, because its check is only "non-empty string".
- **Greedy span.** The JSON span runs from the first `{` to the last `}`. It is not a balanced object.
- **Score range.** `moodScore` is passed through unclamped.
- **Emotions and content.** An empty `emotions` array is kept. Falsy `content` gives the 500 "No response from AI" reply. Content that is truthy but not a string makes `content.match` throw, so it takes the fallback path. It then fails the final string check with the 500 "incomplete" reply.
- **Change feed.** Events are folded in arrival order, with no last-write-wins rule.

## Model

| member | source | states |
|---|---|---|
| JsValues.Get | supabase/functions/analyze-mood/index.ts:153-159 | property access yields `undefined` exactly for an absent key |
| JsValues.Or | supabase/functions/analyze-mood/index.ts:153 | JavaScript's logical or yields its first operand when that is truthy, else its second; the result is truthy iff either operand is |
| JsValues.Truthy | supabase/functions/analyze-mood/index.ts:16 | exactly `undefined`, `null`, `false`, `0` and `""` are falsy |
| JsText.TrimStartCuts | src/pages/Dashboard.tsx:86 | cutting leading white space keeps a suffix, removes only white space, and the result does not start with white space |
| JsText.TrimEndCuts | src/pages/Dashboard.tsx:86 | cutting trailing white space keeps a prefix, removes only white space, and the result does not end with white space |
| JsText.CutEnds | src/pages/Dashboard.tsx:86 | cutting the front and then the back leaves a slice of the text with only white space on either side of it |
| JsText.Trim | src/pages/MoodAnalyzer.tsx:41 | the trimmed text is a slice of the text with only white space before and after it; it is empty iff the text is all white space, and otherwise neither starts nor ends with white space |
| JsText.TrimIdempotent | src/pages/MoodAnalyzer.tsx:57 | trimming twice is trimming once |
| JsText.ParseInt | src/hooks/useCooldown.tsx:40 | `parseInt(s, 10)` is NaN exactly when no digit follows the leading white space and optional sign |
| JsText.IntToString | src/hooks/useCooldown.tsx:60 | a non-negative integer is written in decimal digits only, a negative one as `-` followed by digits |
| JsText.ParseIntToString | src/hooks/useCooldown.tsx:40-60 | the cooldown end written with `toString` is read back by `parseInt` as the same integer |
| Sequences.Filter | src/hooks/useCooldown.tsx:28 | the result keeps exactly the elements satisfying the test, is no longer than the input, and satisfies the test at every index |
| AnalyzeMood.UserMessage | supabase/functions/analyze-mood/index.ts:76 | the user message is the fixed prefix followed by the mood text unchanged |
| AnalyzeMood.AcceptedMoodText | supabase/functions/analyze-mood/index.ts:16 | the request passes the check exactly when `moodText` is a non-empty string |
| AnalyzeMood.IsOk | supabase/functions/analyze-mood/index.ts:95 | `response.ok` is a 2xx status, so none of the statuses the handler maps to errors |
| AnalyzeMood.Classify | supabase/functions/analyze-mood/index.ts:82-126 | the content goes on, unchanged, iff the gateway answered 2xx with truthy content; every failure is an error reply with status 402, 429, 500 or 504 |
| AnalyzeMood.FirstIndexOf | supabase/functions/analyze-mood/index.ts:132 | the position of the first occurrence, or none when the character is absent |
| AnalyzeMood.LastIndexOf | supabase/functions/analyze-mood/index.ts:132 | the position of the last occurrence, or none when the character is absent |
| AnalyzeMood.ExtractSpan | supabase/functions/analyze-mood/index.ts:132-133 | `/\{[\s\S]*\}/` matches iff some `{` comes before some `}` |
| AnalyzeMood.ExtractSpanIsLeftmostLongest | supabase/functions/analyze-mood/index.ts:132 | the span taken is the leftmost, longest match of the pattern |
| AnalyzeMood.Fallback | supabase/functions/analyze-mood/index.ts:142-148 | the fallback object holds the content, whatever its type, as insight, score 5, "thoughtful", the three fixed tips and the fixed closing |
| AnalyzeMood.ParseOrFallback | supabase/functions/analyze-mood/index.ts:128-149 | the parsed span; the fallback object when the content is not a string (`match` throws), has no span, or its span does not parse |
| AnalyzeMood.Normalise | supabase/functions/analyze-mood/index.ts:152-160 | per field: insight from the first truthy of `insight`, `response` and the content, a numeric score or 5, an array of emotions or the default, a non-empty tips array or the defaults, a truthy closing or the default |
| AnalyzeMood.ToObject | supabase/functions/analyze-mood/index.ts:171-173 | the returned object's keys are exactly the five assessment fields, so no `response` |
| AnalyzeMood.Respond | supabase/functions/analyze-mood/index.ts:162-174 | status 200 iff the insight is a non-empty string, otherwise the 500 "incomplete response" reply |
| AnalyzeMood.Handle | supabase/functions/analyze-mood/index.ts:13-174 | the gateway is asked (with the prefixed text) iff `moodText` is a non-empty string and the key is configured |
| AnalyzeMoodProperties.RejectionIsExactlyBadMoodText | supabase/functions/analyze-mood/index.ts:16-21 | status 400 is returned iff `moodText` is falsy or not a string, and then nothing is sent |
| AnalyzeMoodProperties.WhiteSpaceMoodTextIsSent | supabase/functions/analyze-mood/index.ts:16 | a non-empty text made only of white space is not rejected but sent to the gateway |
| AnalyzeMoodProperties.GatewayStatusMapping | supabase/functions/analyze-mood/index.ts:82-126 | abort gives 504, 429 gives 429, 402 gives 402, other failures give 500, and falsy content gives the 500 "no response" reply |
| AnalyzeMoodProperties.SuccessfulReplyShape | supabase/functions/analyze-mood/index.ts:151-174 | every 200 reply has a non-empty string insight, at least one tip and a truthy closing |
| AnalyzeMoodProperties.NonStringInsightIsIncomplete | supabase/functions/analyze-mood/index.ts:153-169 | a truthy non-string insight ends in the 500 "incomplete response" reply |
| AnalyzeMoodProperties.NonStringContentIsIncomplete | supabase/functions/analyze-mood/index.ts:128-168 | truthy content that is not a string takes the fallback path and ends in the 500 "incomplete response" reply |
| AnalyzeMoodProperties.UnparsableReplyFallsBack | supabase/functions/analyze-mood/index.ts:128-160 | string content without a parsable span comes back with 200 as itself plus the fixed defaults |
| AnalyzeMoodProperties.NoBraceNoSpan | supabase/functions/analyze-mood/index.ts:132-137 | text without `{` has no span |
| AnalyzeMoodProperties.PassThrough | supabase/functions/analyze-mood/index.ts:152-160 | an object whose five fields are usable is passed through field for field |
| AnalyzeMoodProperties.PassThroughReply | supabase/functions/analyze-mood/index.ts:128-174 | a usable parsed reply with a string insight is returned as it came |
| AnalyzeMoodProperties.NormaliseIdempotent | supabase/functions/analyze-mood/index.ts:152-160 | normalising the returned object again changes nothing |
| AnalyzeMoodProperties.FieldsAreIndependent | supabase/functions/analyze-mood/index.ts:152-160 | each output field depends only on the input fields it is computed from |
| Cooldown.CeilDiv | src/hooks/useCooldown.tsx:41 | `Math.ceil(a / b)` is the least q with a <= b*q |
| Cooldown.Prune | src/hooks/useCooldown.tsx:28 | exactly the timestamps less than an hour old survive |
| Cooldown.StoredUsage | src/hooks/useCooldown.tsx:19-34 | empty when the key is missing or empty or its value is unreadable; otherwise the decoded log pruned at `now`, so only timestamps younger than an hour |
| Cooldown.EncodeUsage | src/hooks/useCooldown.tsx:66 | the written log is never empty, so reading it back never takes the missing-key path |
| Cooldown.HasCooldownText | src/hooks/useCooldown.tsx:38-39 | `if (stored)`: the cooldown key is present and its string value is truthy |
| Cooldown.CooldownRemaining | src/hooks/useCooldown.tsx:38-48 | 0 without a stored end; NaN iff the stored end is unreadable; otherwise 0 iff the end has passed, else the seconds left rounded up |
| Cooldown.StartedStore | src/hooks/useCooldown.tsx:58-66 | the store gains both keys: the end 30 seconds ahead, and the pruned log with `now` appended; every other key keeps its value |
| Cooldown.CanAnalyze | src/hooks/useCooldown.tsx:82 | analysis is allowed exactly at 0 seconds of cooldown below the hourly limit; NaN, a running cooldown or the limit block it |
| Cooldown.RequestsRemaining | src/hooks/useCooldown.tsx:83 | at most 10, zero iff 10 or more uses were counted, and otherwise uses plus remaining make 10 |
| Cooldown.CooldownHook.constructor | src/hooks/useCooldown.tsx:14-16 | no cooldown, no uses, limit not reached |
| Cooldown.CooldownHook.UpdateCooldownState | src/hooks/useCooldown.tsx:37-55 | the remaining seconds are read from the store; the key is removed exactly when it is present and the remainder is 0; the count is the pruned log's length and the limit flag is count >= 10 |
| Cooldown.CooldownHook.StartCooldown | src/hooks/useCooldown.tsx:58-69 | the store gets the new end and the log with `now` appended, 30 seconds remain and the count includes the new use |
| CooldownProperties.PruneKeepsOrder | src/hooks/useCooldown.tsx:28 | pruning distributes over concatenation, so survivors keep their order |
| CooldownProperties.PruneLater | src/hooks/useCooldown.tsx:28 | pruning later after pruning earlier is pruning later, and never counts more |
| CooldownProperties.PruneIdempotent | src/hooks/useCooldown.tsx:28 | pruning twice at the same time is pruning once |
| CooldownProperties.CooldownExpiry | src/hooks/useCooldown.tsx:37-82 | after a start at t the remainder is at most 30, reaches 0 exactly at t + 30000, and analysis is blocked before that |
| CooldownProperties.RecordedUse | src/hooks/useCooldown.tsx:58-66 | a use recorded at `now` is counted after the earlier ones for the following hour |
| CooldownProperties.ReplayAppends | src/hooks/useCooldown.tsx:65 | a step that appends its time to a log leaves, after a run of steps, all their times appended in order |
| CooldownProperties.UsesWithinHourAreCounted | src/hooks/useCooldown.tsx:19-69 | every use started within the hour before a check is counted at the check, in order |
| CooldownProperties.HourlyCapReached | src/hooks/useCooldown.tsx:54-83 | from an empty log the count is the number of uses in the last hour, and no requests remain exactly when there were ten or more |
| MoodBands.LabelText | src/pages/Dashboard.tsx:138-142 | the caption is never empty and reads "Unknown" only for the Unknown band |
| MoodBands.LabelTextInjective | src/pages/Dashboard.tsx:138-142 | no two bands share a caption |
| MoodBands.AnalyzerLabel | src/pages/MoodAnalyzer.tsx:97-102 | bands at most 3, at most 5, at most 7 and above, with no "Unknown" |
| MoodBands.DashboardLabel | src/pages/Dashboard.tsx:137-143 | a missing or zero score is "Unknown", the others banded as in the analyzer |
| MoodBands.AnalyzerLabelMonotone | src/pages/MoodAnalyzer.tsx:97-102 | a higher score never lands in a lower band |
| MoodBands.LabelsAgree | src/pages/Dashboard.tsx:137-143 | the two pages agree on every non-zero score and differ only on 0 |
| MoodBands.PromptScoresAreLabelled | src/pages/Dashboard.tsx:137-143 | every score from 1 to 10 gets a real band, the same on both pages |
| Dashboard.WithEditedText | src/pages/Dashboard.tsx:105-107 | same length; the entries with the id get the new text, the others are unchanged |
| Dashboard.WithoutEntry | src/pages/Dashboard.tsx:132 | exactly the entries with other ids remain |
| Dashboard.EditIsIdempotent | src/pages/Dashboard.tsx:105-107 | saving the same text twice is saving it once |
| Dashboard.EditOfAbsentIdIsNoop | src/pages/Dashboard.tsx:105-107 | an edit of an absent id changes nothing |
| Dashboard.DeleteKeepsOrder | src/pages/Dashboard.tsx:132 | deleting keeps the remaining entries in their order |
| Dashboard.DeleteOfAbsentIdIsNoop | src/pages/Dashboard.tsx:132 | deleting an absent id changes nothing |
| Dashboard.AverageScore | src/pages/Dashboard.tsx:145-147 | null without logs, NaN when no score is truthy, otherwise the mean of the truthy scores rounded half up |
| Dashboard.AverageWithinRange | src/pages/Dashboard.tsx:145-147 | when all truthy scores lie in a range, so does the average |
| Dashboard.DashboardPage.constructor | src/pages/Dashboard.tsx:44-49 | empty list, loading, no editor and no pending delete |
| Dashboard.DashboardPage.FetchMoodLogs | src/pages/Dashboard.tsx:60-78 | an error keeps the list, otherwise it becomes the rows or `[]`; loading ends |
| Dashboard.DashboardPage.HandleEdit | src/pages/Dashboard.tsx:80-83 | the editor opens on the entry with its text |
| Dashboard.DashboardPage.SetEditText | src/pages/Dashboard.tsx:304 | the edit text becomes the typed text |
| Dashboard.DashboardPage.AskDelete | src/pages/Dashboard.tsx:267 | the entry's id becomes the pending delete |
| Dashboard.DashboardPage.HandleSaveEdit | src/pages/Dashboard.tsx:85-111 | nothing without an entry or with empty trimmed text; otherwise the trimmed text is sent and, on success, applied to the entries with that id and the editor closes |
| Dashboard.DashboardPage.HandleDelete | src/pages/Dashboard.tsx:113-135 | nothing is sent and nothing changes when the pending id is falsy (none or `""`); otherwise the delete is sent, on success exactly the entries with that id leave the list, and the pending id is cleared |
| Community.Overlay | src/pages/Community.tsx:77 | every feed column replaces the pledge's and the profile stays |
| Community.ApplyUpdate | src/pages/Community.tsx:75-78 | same length and order; only the entries with the row's id are overlaid |
| Community.WithoutId | src/pages/Community.tsx:79-80 | exactly the entries with other ids remain |
| Community.Apply | src/pages/Community.tsx:71-121 | an insert with no data leaves the list, otherwise gives the fetched pledge followed by the prior entries with other ids, in their order; an update keeps length and ids and touches only the row's id; a delete gives the entries with other ids, in their order |
| Community.PrependFetched | src/pages/Community.tsx:111-121 | no data leaves the list; otherwise the fetched pledge goes first, followed by exactly the prior entries with other ids in their order (`WithoutId`) |
| Community.NextStatus | src/pages/Community.tsx:170 | "active" becomes "completed", everything else becomes "active" |
| Community.ToggleStatus | src/pages/Community.tsx:167-174 | an update is sent iff the signed-in user owns the pledge, with the next status |
| Community.StatusBadge | src/pages/Community.tsx:185-194 | "completed" and "cancelled" get their badges, everything else Active |
| Community.CommunityPage.constructor | src/pages/Community.tsx:49-53 | empty list, loading, empty form, dialog closed |
| Community.CommunityPage.FetchPledges | src/pages/Community.tsx:91-109 | an error keeps the list, otherwise it becomes the rows or `[]`; loading ends |
| Community.CommunityPage.OnChange | src/pages/Community.tsx:71-81 | the list becomes the event folded into it |
| Community.CommunityPage.SetNewPledge | src/pages/Community.tsx:327 | the form text becomes the typed text |
| Community.CommunityPage.SetDialogOpen | src/pages/Community.tsx:311 | the dialog opens or closes as asked |
| Community.CommunityPage.HandleCreatePledge | src/pages/Community.tsx:123-165 | refused without a user or with an empty trimmed title; otherwise the trimmed title is inserted as "active", and on success the form clears and the dialog closes |
| CommunityProperties.DeleteRemovesEveryMatch | src/pages/Community.tsx:79-80 | after a delete no entry has the id, and the others keep their order |
| CommunityProperties.InsertLeavesOneEntry | src/pages/Community.tsx:118-119 | after the fetched insert exactly one entry has its id |
| CommunityProperties.WithoutIdTwice | src/pages/Community.tsx:80 | removing an id twice is removing it once |
| CommunityProperties.ApplyIsIdempotent | src/pages/Community.tsx:71-121 | delivering the same event twice is delivering it once |
| CommunityProperties.ToggleTwiceRestores | src/pages/Community.tsx:170 | toggling twice restores exactly "active" and "completed" |
| CommunityProperties.ToggleNeverCancels | src/pages/Community.tsx:170-194 | the toggle never yields a cancelled badge |
| CommunityProperties.ToggleChangesBadge | src/pages/Community.tsx:170-194 | the toggle changes the badge exactly for the three known statuses |
| Breathing.NextPhase | src/pages/Breathing.tsx:22-36 | the phases advance one place round the cycle Inhale, Hold, Exhale, Reset |
| Breathing.Step | src/pages/Breathing.tsx:19-39 | paused: nothing changes; counts down above 1, else the next phase with 4 seconds; a cycle is counted exactly on Reset to Inhale; `timeLeft` stays within 1 to 4 |
| Breathing.StepAdvances | src/pages/Breathing.tsx:21-38 | each running tick moves one second round the 16-second cycle |
| Breathing.StepNAdvances | src/pages/Breathing.tsx:20-40 | after n ticks the exercise is n seconds further round, with one cycle per 16 seconds |
| Breathing.FullCycle | src/pages/Breathing.tsx:21-39 | 16 ticks bring any running state back with one more cycle |
| Breathing.InhaleToInhale | src/pages/Breathing.tsx:21-39 | from (Inhale, 4), 16 ticks return to (Inhale, 4) with one more cycle |
| Breathing.PhaseText | src/pages/Breathing.tsx:55-63 | "Hold" is shown for Hold and for Reset |
| Breathing.CircleScale | src/pages/Breathing.tsx:65-74 | "scale-150" iff running and in Inhale or Hold, otherwise "scale-100" |
| Breathing.BreathingPage.constructor | src/pages/Breathing.tsx:11-14 | paused, Inhale, 4 seconds, no cycles |
| Breathing.BreathingPage.Tick | src/pages/Breathing.tsx:20-39 | the fields after a firing are `Step` of the fields before it |
| Breathing.BreathingPage.ToggleTimer | src/pages/Breathing.tsx:46 | only `isActive` flips |
| Breathing.BreathingPage.ResetTimer | src/pages/Breathing.tsx:48-53 | the initial state is restored |
| MoodAnalyzer.ResultsVisible | src/pages/MoodAnalyzer.tsx:217 | the results panel shows exactly when the response is a non-empty string and the score a non-zero number |
| MoodAnalyzer.AnalyzerPage.constructor | src/pages/MoodAnalyzer.tsx:20-24 | empty text, no result, not analyzing, step 0 |
| MoodAnalyzer.AnalyzerPage.SetMoodText | src/pages/MoodAnalyzer.tsx:132-140 | the text becomes the typed text while no analysis runs |
| MoodAnalyzer.AnalyzerPage.Submit | src/pages/MoodAnalyzer.tsx:30-58 | no user: redirect and no call; empty trimmed text: no call; otherwise analyzing, step 1, result cleared and the trimmed text sent |
| MoodAnalyzer.AnalyzerPage.Resolve | src/pages/MoodAnalyzer.tsx:60-94 | success: step 2, the returned values shown and the row saved with the sent text; failure: step 0 and no results panel; analysis over either way |

## Left out

- **HTTP plumbing.** Left out: `serve`, CORS headers, the OPTIONS reply, `req.json()`, `Deno.env`, `AbortController`/`setTimeout` and logging. The key's presence and the gateway outcome are inputs.
- **The catch-all 500.** The edge function's reply for errors caught by its outer handler is not modelled. These are: a fetch error other than an abort, a 2xx body that is not JSON (`response.json()`), a `null` body (reading `data.choices` throws), and an unreadable request body. The `Upstream` input covers a parsed JSON body; a missing `content` path is `undefined`.
- **The system prompt.** Its text and the sampling settings are constants of the request that nothing depends on.
- **`JSON.parse`.** It is a parameter: the hook's `decode` and the handler's `parse`. `JSON.stringify` is modelled by two functions, `Cooldown.EncodeUsage` for the usage log and `AnalyzeMood.ToObject` for the reply object. `ReadsBack` assumes that the hook's decoder inverts `EncodeUsage`.
- **Non-integer numbers.** Infinities and non-integer numbers are not represented. A non-integer `moodScore` from the gateway is not modelled.
- **Supabase queries and the realtime channel.** These are external services. Their outcomes are inputs. An INSERT event's follow-up fetch is folded in when it returns, in arrival order.
- **React itself.** `useState` batching, effects, intervals, StrictMode and stale closures are left out. For example, `handleSaveEdit` maps the `moodLogs` seen when it started. The model applies each method to the current state.
- **Interface effects.** Toasts, navigation, colours, icons and the JSX are left out; only the state fields the handlers read and write are modelled.
- **The analyzer page and the edge function's reply.** The page reads `data.aiResponse`, but the function returns `insight`. The page's input is therefore modelled as an independent `InvokeResult`, not tied to `AnalyzeMood.Reply`.
- **The analyzer page and the cooldown hook.** The analyzer page does not use the cooldown hook, and the model does not connect them.
- **The analyzer's text-area handler.** It also calls `setCurrentStep(… ? 0 : 0)` while the step is 0. This has no effect and is not modelled.
- **Time formatting.** Date formatting with date-fns is a library call and is left out.
- **Static pages and components.** Index, FAQ, WellnessTips, SuccessStories, PrivacyPolicy, TermsOfService, Footer and ScrollToTop are not part of this model. Neither are the browser screenshot scripts `verify_*.cjs`.
- **Characters.** Strings are sequences of Unicode scalar values, not UTF-16 code units. `trim` uses the ECMAScript white-space and line-terminator set.
