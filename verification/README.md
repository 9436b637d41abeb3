# A verified model of the founder-network client's logic

The client is a React application on top of Supabase. Founders use it to post pitches, like and comment on them, follow a roadmap, attend masterclasses, message each other and ask an AI assistant. Almost all of it is rendering and network traffic. This project models the pieces that compute something, in Dafny, and proves what they promise.

The modelled pieces are:

- **The AI chat stream** (`AIChatWidget`).
  - `streamChat` reads a server-sent-event body line by line. It cuts `"\n"`-terminated lines out of a text buffer, drops one trailing `"\r"`, skips lines without the `"data: "` prefix and stops at `[DONE]`. It emits the `delta.content` of every payload that parses. It pushes an unparseable line back and waits for more input.
  - The model is a `LineDecoder` class with a `buf` field and a `Feed` method. `Feed` is proved against a pure scan of the whole buffer, `ChatStream.ScanLines`. The read loop and the status handling (429, 402, other failures) are modelled as methods on top of it.
  - `send` folds the deltas into a single assistant message. It is modelled by the `ChatPanel` class.
- **Founder discovery.** Per-user pitch counts and like totals are built by a loop into a map. The current user is excluded, the rest are sorted by likes with a stable sort, and the first ten are kept.
- **Analytics.** Totals, chart bars with titles truncated to 12 characters, and the tag histogram. The histogram as written stores counts in a plain object; see Findings.
- **Comments.** The distinct authors, the author join, the initials shown in avatars, and the guards and effects of `addComment`.
- **Direct messages.** The realtime conversation filter and the guard of `sendMessage`.
- **The create-pitch dialog.** The tag list stays trimmed, distinct, non-empty and at most five long. The submit resets the form.
- **The home feed and the events page.** Toggle sets, `trending`/`filtered`, the displayed like count, the live event and the upcoming list.
- **The roadmap.** The three-state status cycle, the completed count and the rounded progress percentage.
- **The sign-in page.** The password/OTP mode, channel and login/sign-up state machine, the OTP digit sanitiser, field visibility, submit dispatch and the disabled button.
- **The route guards** `ProtectedRoute` and `AuthRoute`.

Shared helpers come in two groups:

- **JavaScript string and array built-ins:** `trim` with the ECMAScript whitespace set, `split`, `indexOf`, `includes`, ASCII case mapping, `filter`, `find` and `slice`.
- **Shared application logic:** the `getInitials` chain and the copy-and-flip `Set` update.

Network results (Supabase rows, errors, the HTTP status and body chunks) are parameters of the model. `JSON.parse(...).choices?.[0]?.delta?.content` is a function parameter `parse: string -> Option<Option<string>>`:

- `None` means the parse threw;
- `Some(None)` means the content is absent or falsy (`if (c)` fails);
- `Some(Some(c))` carries truthy content, a truthy non-string being read as its string form.

## Model

| member | source | states |
|---|---|---|
| ChatStream.StripCR | src/components/AIChatWidget.tsx:48 | Drops one trailing `"\r"`. Its lemma `StepIgnoresCR` proves that a second strip changes nothing about the line's effect. |
| ChatStream.IsDataLine | src/components/AIChatWidget.tsx:49 | The `"data: "` prefix test. `NonDataLineIsDropped` proves that a line failing it is consumed without effect. |
| ChatStream.Payload | src/components/AIChatWidget.tsx:50 | The text after the prefix, trimmed. `DataLineIgnoresCR` proves it is the same with or without a trailing `"\r"`. |
| ChatStream.Emits | src/components/AIChatWidget.tsx:54 | Truthiness of `c`. The contracts of `Step` and `DeltasAreNonEmpty` prove that no empty delta is ever passed on. |
| ChatStream.Step | src/components/AIChatWidget.tsx:49-55 | One extracted line is skipped, emits its non-empty content, stops at `[DONE]`, or fails to parse; an emitted delta is never empty. |
| ChatStream.LastLine | src/components/AIChatWidget.tsx:45-48 | The text after the last `"\n"`: contains no newline, is a suffix of the input, and is preceded by a newline when shorter than the input. |
| ChatStream.ScanLines | src/components/AIChatWidget.tsx:45-56 | One pass of the inner loop. The buffer it leaves is never longer than the one it was given, and it has no `"\n"` once every complete line is consumed. Every decoder lemma and `LineDecoder.Feed` are stated against it. |
| ChatStream.WaitingLeavesLastLine | src/components/AIChatWidget.tsx:43-56 | When a pass of the inner loop runs out of complete lines, what stays in the buffer is exactly the text after the last `"\n"`. |
| ChatStream.BlockedLeavesFailingLine | src/components/AIChatWidget.tsx:55 | A pass that stops on a parse failure leaves an unparseable complete line at the front of the buffer. |
| ChatStream.DeltasAreNonEmpty | src/components/AIChatWidget.tsx:54 | No delta a pass emits is the empty string. |
| ChatStream.ScanOneLine | src/components/AIChatWidget.tsx:45-55 | The pass over a buffer is the effect of its first line followed by the pass over the rest: skip it, emit one delta, finish, or put the line back and stop. |
| ChatStream.BlockingLineIsPushedBack | src/components/AIChatWidget.tsx:55 | A buffer whose first line fails to parse yields no delta, blocks, and keeps that failing line at its front. |
| ChatStream.StepIgnoresCR | src/components/AIChatWidget.tsx:47 | Only one trailing `"\r"` is stripped, and stripping it again changes nothing about the line's effect. |
| ChatStream.NonDataLineIsDropped | src/components/AIChatWidget.tsx:49 | A line without the `"data: "` prefix emits nothing and is removed from the buffer. |
| ChatStream.DoneLineFinishes | src/components/AIChatWidget.tsx:50-51 | A `[DONE]` line finishes the scan: nothing after it is processed, and no delta is emitted for it. |
| ChatStream.ParsedLineEmitsContent | src/components/AIChatWidget.tsx:52-54 | A parsed payload emits exactly one delta when its content is present and non-empty, otherwise nothing, and the scan goes on. |
| ChatStream.UnparseableLineIsPushedBack | src/components/AIChatWidget.tsx:55 | On a parse failure, the line followed by `"\n"` is put back in front of the rest of the buffer and the pass stops. |
| ChatStream.PushedBackLineBlocks | src/components/AIChatWidget.tsx:55 | A line put back this way is the first line the next pass sees, so it fails again. |
| ChatStream.BlockedIsSticky | src/components/AIChatWidget.tsx:39-57 | Once an unparseable complete line is at the front of the buffer, no later input produces any delta. |
| ChatStream.ScanAppend | src/components/AIChatWidget.tsx:39-57 | Chunk-boundary independence: scanning `b + c` is scanning `b`, then continuing on what it left plus `c`; a blocked or finished scan of `b` is unaffected by `c`. |
| ChatStream.ClassifyLine | src/components/AIChatWidget.tsx:48-55 | The body of the inner loop for one line computes exactly the line's effect: skip, emit its content, stop at `[DONE]`, or fail. |
| ChatStream.FeedSkipsLine | src/components/AIChatWidget.tsx:46-49 | After `continue`, the deltas still to come are those of the pass over the rest of the buffer. |
| ChatStream.FeedEmitsLine | src/components/AIChatWidget.tsx:52-54 | After `onDelta(c)`, the emitted deltas gain `c` and the rest come from the pass over the remaining buffer. |
| ChatStream.FeedStopsAtDone | src/components/AIChatWidget.tsx:50-51 | At `[DONE]` the pass finishes with the deltas emitted so far and the buffer after the line. |
| ChatStream.FeedPushesBack | src/components/AIChatWidget.tsx:55 | On a parse failure the pass blocks with the deltas so far, and the buffer is the line, `"\n"` and the rest. |
| ChatStream.LineDecoder.constructor | src/components/AIChatWidget.tsx:37 | The buffer starts empty. |
| ChatStream.TracksAppend | src/components/AIChatWidget.tsx:39-57 | Feeding one more chunk to a decoder that is in step with the text read so far emits exactly the extra deltas of the longer text and stays in step. |
| ChatStream.FinishedIgnoresLaterChunks | src/components/AIChatWidget.tsx:51 | Once `[DONE]` has been read, later chunks add no delta. |
| ChatStream.LineDecoder.Feed | src/components/AIChatWidget.tsx:42-56 | Appends the chunk to `buf` and runs the inner loop. The deltas, the done flag and the new buffer are those of `ScanLines` on the old buffer plus the chunk. |
| ChatStream.IsOk | src/components/AIChatWidget.tsx:31-33 | `resp.ok`. Neither 429 nor 402 is ok, so the three status tests cannot overlap. |
| ChatStream.ReadBody | src/components/AIChatWidget.tsx:39-57 | The read loop emits exactly the deltas of one scan of the whole concatenated body, however it is split into chunks. |
| ChatStream.StreamChat | src/components/AIChatWidget.tsx:13-59 | 429 and 402 each raise their own notice and call `onDone` without reading the body. Any other non-ok status, or a missing body, throws with no callback. Otherwise the callbacks are the deltas of the body followed by one `onDone`, also when the body ends without `[DONE]`. |
| ChatWidget.Join | src/components/AIChatWidget.tsx:80-82 | The `soFar` accumulator: the deltas joined in order. `UpsertGrowsReply` proves each delta extends it by exactly that delta. |
| ChatWidget.Upsert | src/components/AIChatWidget.tsx:83-87 | The last message, if it is the assistant's, gets the new content; otherwise an assistant message is appended. Every earlier message is unchanged. |
| ChatWidget.ResponseCallbacks | src/components/AIChatWidget.tsx:31-33 | What `send` observes: the deltas of the body for an ok response with a body and none otherwise; one notice per failing status; `onDone` is called unless the request threw. |
| ChatWidget.DeltasOfDeltaEvents | src/components/AIChatWidget.tsx:54-58 | The callbacks of a readable body pass on every delta in order, raise no notice, and call `onDone` only at the end. |
| ChatWidget.CallbackStep | src/components/AIChatWidget.tsx:91 | Each callback adds its delta, its notice or its `onDone` to what was seen before, and nothing else. |
| ChatWidget.DoneInPrefix | src/components/AIChatWidget.tsx:91 | `onDone` has come among the first callbacks iff one of them is `onDone`. |
| ChatWidget.UpsertGrowsReply | src/components/AIChatWidget.tsx:81-87 | After the user's message, one more delta through `upsert` extends the single assistant reply by that delta. |
| ChatWidget.ChatPanel.constructor | src/components/AIChatWidget.tsx:63-65 | No messages, an empty input, not loading. |
| ChatWidget.ChatPanel.Stream | src/components/AIChatWidget.tsx:90-95 | After the user's message, the transcript gains at most one assistant reply holding the received deltas; the notices are those of the status; loading is off whatever happens. |
| ChatWidget.ChatPanel.Deliver | src/components/AIChatWidget.tsx:80-91 | Applying the callbacks after the user's message adds exactly one assistant message holding all deltas joined, if there was at least one delta; `onDone` ends loading. |
| ChatWidget.ChatPanel.Send | src/components/AIChatWidget.tsx:72-96 | A no-op for blank input or while loading. Otherwise the input is cleared and the transcript becomes the old messages, the trimmed user message and at most one assistant reply holding every delta in order. Loading is off at the end, whatever the response. |
| JsString.Trim | src/components/AIChatWidget.tsx:73 | `trim()`: never longer than its input; a non-empty result neither starts nor ends with whitespace. |
| JsString.TrimStartDropsWhitespace | src/components/AIChatWidget.tsx:50 | Everything the leading trim drops is whitespace. |
| JsString.TrimStartIsSuffix | src/components/AIChatWidget.tsx:50 | The leading trim leaves a suffix of the input. |
| JsString.TrimEndDropsWhitespace | src/components/AIChatWidget.tsx:50 | The trailing trim leaves a prefix of the input and everything it drops is whitespace. |
| JsString.TrimOfTrimmed | src/components/CreatePitchDialog.tsx:35 | A string with no whitespace at either end is its own trim. |
| JsString.IndexOf | src/components/AIChatWidget.tsx:45 | `-1` iff the character is absent; otherwise the index of its first occurrence. |
| JsString.Split | src/components/CommentsSheet.tsx:81 | At least one piece, none containing the separator. |
| JsString.Lower | src/pages/HomePage.tsx:16-17 | Same length, each character mapped to lower case. |
| JsString.Upper | src/components/CommentsSheet.tsx:84 | Same length, each character mapped to upper case. |
| JsArray.Filter | src/pages/HomePage.tsx:13 | Never longer than the input; exactly the elements the test keeps. |
| JsArray.FilterAppend | src/pages/HomePage.tsx:13 | Filtering distributes over any split of the array, so order is kept. |
| JsArray.FilterDistinct | src/components/CreatePitchDialog.tsx:43 | Filtering an array without repeats gives one without repeats. |
| JsArray.Find | src/pages/EventsPage.tsx:19 | None iff no element passes the test; otherwise the first one that does. |
| JsArray.Prefix | src/components/FounderDiscovery.tsx:58 | `slice(0, n)`: the first `n` elements, or all of them when there are fewer. |
| JsString.SplitJoin | src/components/CommentsSheet.tsx:81 | `split(" ")` loses nothing: joining the pieces with the separator gives back the input. |
| Initials.FirstsOfSplit | src/pages/MessagesPage.tsx:95 | Splitting at the first space: the first characters are that of the first piece, if non-empty, then those of the rest. |
| Initials.WordStartsAtSpace | src/pages/MessagesPage.tsx:95 | The word starts of a name are those of its first word, then those after the first space. |
| Initials.GetInitials | src/pages/MessagesPage.tsx:94-95 | At most two characters, none of them a lower-case letter. |
| Initials.FirstsAreWordStarts | src/pages/MessagesPage.tsx:95 | The first characters of the space-separated pieces are exactly the first characters of the words of the name; empty pieces contribute nothing. |
| Initials.InitialsOfName | src/pages/MessagesPage.tsx:94-95 | The initials are the upper-cased first letters of the name's words, cut to two. |
| Initials.InitialsOrPlaceholder | src/components/CommentsSheet.tsx:78-86 | An absent or empty name gives `"?"`; any other name gives its initials. |
| ToggleSet.Toggle | src/pages/HomePage.tsx:22-28 | The toggled id changes membership; every other id keeps it. |
| ToggleSet.ToggleTwice | src/pages/EventsPage.tsx:11-17 | Toggling the same id twice restores the set. |
| ToggleSet.ToggleCommutes | src/pages/HomePage.tsx:22-28 | Toggles of two ids may be applied in either order. |
| HomePage.Matches | src/pages/HomePage.tsx:14-18 | The search test. An empty search matches every post. |
| HomePage.Trending | src/pages/HomePage.tsx:13 | Exactly the posts flagged trending. |
| HomePage.Filtered | src/pages/HomePage.tsx:14-18 | A post is kept iff its lower-cased title or description contains the lower-cased search. |
| HomePage.FilteredAppend | src/pages/HomePage.tsx:13-18 | Both lists keep feed order: they distribute over any split of the feed. |
| HomePage.EmptySearchKeepsAll | src/pages/HomePage.tsx:14-18 | An empty search keeps every post, in order. |
| HomePage.ShowTrending | src/pages/HomePage.tsx:52 | The trending section shows only when the search matches every post. |
| HomePage.DisplayedLikes | src/pages/HomePage.tsx:116 | `likes + 1` when liked, `likes` otherwise. |
| HomePage.ToggleLikeMovesOneCount | src/pages/HomePage.tsx:22-28 | A like toggle moves that post's displayed count by exactly one and leaves every other post's count alone. |
| EventsPage.LiveEvent | src/pages/EventsPage.tsx:19 | None iff no event is live; otherwise the first live event. |
| EventsPage.Upcoming | src/pages/EventsPage.tsx:20 | Exactly the events that are not live. |
| EventsPage.LiveEventNotUpcoming | src/pages/EventsPage.tsx:19-20 | The live event is never among the upcoming ones. |
| EventsPage.UpcomingCount | src/pages/EventsPage.tsx:19-20 | The live and the upcoming events split the list between them. |
| RoadmapPage.CycleIndex | src/pages/RoadmapPage.tsx:27 | Every status is found in the cycle, at the index returned. |
| RoadmapPage.NextStatus | src/pages/RoadmapPage.tsx:28 | A tap always changes the status. `NextStatusOrder` gives the whole cycle. |
| RoadmapPage.NextStatusOrder | src/pages/RoadmapPage.tsx:15 | Not started goes to in progress, then to completed, then back to not started. |
| RoadmapPage.CycleStatus | src/pages/RoadmapPage.tsx:23-30 | Same length and order; steps with another id are unchanged; matching steps change only their status, to the next one. |
| RoadmapPage.CycleThreeTimes | src/pages/RoadmapPage.tsx:23-30 | Cycling the same id three times restores the list. |
| RoadmapPage.CompletedCount | src/pages/RoadmapPage.tsx:20 | The completed count lies between 0 and the number of steps. |
| RoadmapPage.RoundPercent | src/pages/RoadmapPage.tsx:21 | Lies in 0..100 and is within half a point of `100·c/n`, halves rounding up. |
| RoadmapPage.RoundPercentBounds | src/pages/RoadmapPage.tsx:21 | The rounded percentage lies in 0..100 and is within half a point of the exact one. |
| RoadmapPage.Progress | src/pages/RoadmapPage.tsx:21 | None iff there are no steps; otherwise the rounded percentage of completed steps, in 0..100. |
| RoadmapPage.ProgressEnds | src/pages/RoadmapPage.tsx:20-21 | All steps completed gives 100; none completed gives 0. |
| AuthPage.Digits | src/pages/AuthPage.tsx:297 | The kept characters are all ASCII digits, and a character is kept exactly when it is a digit of the input. |
| AuthPage.DigitsAppend | src/pages/AuthPage.tsx:297 | The digits of a concatenation are the digits of each part in order, so no digit is skipped or reordered. |
| AuthPage.PastedCodeWithSeparator | src/pages/AuthPage.tsx:297 | A six-digit code pasted with a separator inside it is stored as its six digits and can be submitted. |
| AuthPage.SanitizeOtp | src/pages/AuthPage.tsx:297 | The stored code holds only ASCII digits, at most six: the first six digits of the input. |
| AuthPage.SanitizeIdempotent | src/pages/AuthPage.tsx:297 | Sanitising a sanitised code changes nothing. |
| AuthPage.CodeIsTrimmed | src/pages/AuthPage.tsx:32 | A code the field can hold has no whitespace to trim. |
| AuthPage.CanSubmitOtpCode | src/pages/AuthPage.tsx:32 | Submitting a code needs at least six typed characters, since trimming never lengthens. |
| AuthPage.CanSubmitSanitized | src/pages/AuthPage.tsx:32 | For a code the field can hold, `canSubmitOtpCode` holds iff exactly six digits are typed. |
| AuthPage.ShowEmailInput | src/pages/AuthPage.tsx:161 | The e-mail field shows in every form except a code by SMS. |
| AuthPage.ShowPhoneInput | src/pages/AuthPage.tsx:162 | The phone field shows only with the one-time-code method. |
| AuthPage.ExactlyOneAddressField | src/pages/AuthPage.tsx:161-162 | Every mode and channel shows exactly one of the e-mail and phone fields. |
| AuthPage.SubmitDisabled | src/pages/AuthPage.tsx:307 | Always disabled while loading. Never disabled otherwise in password mode, or before a code is sent. |
| AuthPage.SubmitDisabledForSanitized | src/pages/AuthPage.tsx:307 | The button is disabled iff loading, or a code is out in OTP mode and fewer than six digits are typed. |
| AuthPage.Dispatch | src/pages/AuthPage.tsx:124-130 | Password mode authenticates with the password; OTP mode verifies when a code is out and sends one otherwise. |
| AuthPage.AuthForm.constructor | src/pages/AuthPage.tsx:15-28 | The initial state: login, password mode, phone channel, empty fields, no code sent, not loading. |
| AuthPage.AuthForm.ResetOtpState | src/pages/AuthPage.tsx:34-37 | Clears `otpSent` and the code; nothing else changes. |
| AuthPage.AuthForm.ChooseMode | src/pages/AuthPage.tsx:186-200 | Sets the mode and resets the OTP state. |
| AuthPage.AuthForm.ChooseChannel | src/pages/AuthPage.tsx:212-226 | Sets the channel and resets the OTP state. |
| AuthPage.AuthForm.ToggleLogin | src/pages/AuthPage.tsx:356-358 | Flips login and sign-up and resets the OTP state. |
| AuthPage.AuthForm.EnterOtp | src/pages/AuthPage.tsx:297 | Stores the sanitised code and changes nothing else. |
| AuthPage.AuthForm.SendRequest | src/pages/AuthPage.tsx:63-101 | E-mail or SMS by channel, carrying the e-mail address or the phone number respectively; a new user may be created only when signing up, carrying the full name. |
| AuthPage.AuthForm.SubmitRequest | src/pages/AuthPage.tsx:39-140 | The call a submit makes: sign in or sign up with the password, verify the code on the chosen channel, or send a code. |
| AuthPage.AuthForm.HandleSubmit | src/pages/AuthPage.tsx:119-140 | Makes the dispatched call. `otpSent` becomes true only after a send without error. Loading is off at the end, and the other fields are unchanged. |
| AuthPage.AuthForm.ResendOtp | src/pages/AuthPage.tsx:320 | Resends on the current channel; a successful send sets `otpSent`. |
| AppRoutes.ProtectedRoute | src/App.tsx:22-27 | A placeholder while loading, a redirect to `/auth` without a user, the children otherwise. |
| AppRoutes.AuthRoute | src/App.tsx:29-34 | Nothing while loading, a redirect to `/` with a user, the children otherwise. |
| AppRoutes.ExactlyOneGuardOpens | src/App.tsx:22-34 | When not loading, exactly one guard renders its children. |
| AppRoutes.NoGuardOpensWhileLoading | src/App.tsx:24-31 | Neither guard renders its children while loading. |
| AppRoutes.RedirectsLandOnOpenGuard | src/App.tsx:22-34 | Each redirect goes to the route whose guard is open. |
| CreatePitchDialog.AcceptedTagKeepsValid | src/components/CreatePitchDialog.tsx:34-40 | A trimmed, new, non-empty tag added when fewer than five exist keeps the tags trimmed, non-empty, distinct and at most five. |
| CreatePitchDialog.Without | src/components/CreatePitchDialog.tsx:42-44 | Every copy of the removed tag is gone; every other tag stays. |
| CreatePitchDialog.WithoutKeepsOrder | src/components/CreatePitchDialog.tsx:43 | Removal keeps the other tags in order, and removing an absent tag changes nothing. |
| CreatePitchDialog.RemovedTagKeepsValid | src/components/CreatePitchDialog.tsx:42-44 | Removing a tag keeps the list valid. |
| CreatePitchDialog.PitchDialog.constructor | src/components/CreatePitchDialog.tsx:25-30 | Closed, empty fields, no tags, not loading; the tag list is valid. |
| CreatePitchDialog.PitchDialog.AddTag | src/components/CreatePitchDialog.tsx:34-40 | An accepted trimmed tag is appended and the input cleared; otherwise neither tags nor input change. The list stays valid. |
| CreatePitchDialog.PitchDialog.RemoveTag | src/components/CreatePitchDialog.tsx:42-44 | The tags become the list without that tag; nothing else changes. |
| CreatePitchDialog.PitchDialog.Submit | src/components/CreatePitchDialog.tsx:46-71 | Nothing without a user. Otherwise it inserts the current fields; on success the form is emptied and closed, on error it is kept; loading is off at the end. |
| FounderDiscovery.PitchCount | src/components/FounderDiscovery.tsx:42-47 | The reference count of a user's pitch rows: never more than the rows. |
| FounderDiscovery.LikesSum | src/components/FounderDiscovery.tsx:42-47 | The reference like total of a user's pitch rows: non-negative when every row's likes are. |
| FounderDiscovery.BuildStats | src/components/FounderDiscovery.tsx:41-48 | A user has an entry iff they have a pitch row; the entry is their row count and the sum of their likes. |
| FounderDiscovery.NoPitchesNoLikes | src/components/FounderDiscovery.tsx:54-55 | A user without pitch rows has no likes. |
| FounderDiscovery.WithStats | src/components/FounderDiscovery.tsx:52-56 | Keeps the profile. With the fallback to 0, a user with statistics gets exactly their count and likes, even when these are 0. A user without statistics gets 0 and 0. |
| FounderDiscovery.WithStatsCounts | src/components/FounderDiscovery.tsx:52-56 | With the fallbacks to 0, every profile gets exactly its user's pitch count and like total, and its own fields unchanged. |
| FounderDiscovery.Enrich | src/components/FounderDiscovery.tsx:51-56 | One entry per profile other than the current user's, in order, each with its statistics. |
| FounderDiscovery.InsertSorted | src/components/FounderDiscovery.tsx:57 | One insertion step keeps the list sorted by likes, highest first. |
| FounderDiscovery.Insert | src/components/FounderDiscovery.tsx:57 | One insertion adds the founder and loses nobody. |
| FounderDiscovery.InsertKeepsTies | src/components/FounderDiscovery.tsx:57 | An insertion puts the new founder behind every founder with the same likes. |
| FounderDiscovery.SortByLikes | src/components/FounderDiscovery.tsx:57 | The sort is a permutation, sorted by likes, highest first. |
| FounderDiscovery.SortKeepsTieOrder | src/components/FounderDiscovery.tsx:57 | The sort is stable: founders with equal likes keep their relative order. |
| FounderDiscovery.Ranked | src/components/FounderDiscovery.tsx:50-58 | At most ten founders, sorted by likes. None is the current user, and each is a fetched profile with its own statistics. |
| FounderDiscovery.LeftOutRankLower | src/components/FounderDiscovery.tsx:57-58 | A founder left out has no more likes than any founder shown. |
| FounderDiscovery.RankedIsPrefix | src/components/FounderDiscovery.tsx:50-58 | The ranking is the first ten of the sorted founders. |
| FounderDiscovery.FewProfilesAllShown | src/components/FounderDiscovery.tsx:58 | With ten or fewer other founders, all of them are shown. |
| FounderDiscovery.FetchFounders | src/components/FounderDiscovery.tsx:30-60 | Nothing when the profile query returns nothing; otherwise the ranking, with a missing pitch list read as empty. |
| AnalyticsPage.TotalLikes | src/pages/AnalyticsPage.tsx:32 | Non-negative when every pitch's like count is. `TotalsAppend` proves it adds up over any split. |
| AnalyticsPage.TotalComments | src/pages/AnalyticsPage.tsx:33 | Non-negative when every pitch's comment count is. `TotalsAppend` proves it adds up over any split. |
| AnalyticsPage.TotalsAppend | src/pages/AnalyticsPage.tsx:31-33 | The like and comment totals add up over any split of the pitch list. |
| AnalyticsPage.ChartName | src/pages/AnalyticsPage.tsx:36 | A title of at most 12 characters is kept; a longer one becomes its first 12 characters plus `…`; never more than 13. |
| AnalyticsPage.ChartNameIdempotent | src/pages/AnalyticsPage.tsx:36 | Truncating a chart name again changes nothing. |
| AnalyticsPage.PitchData | src/pages/AnalyticsPage.tsx:34-40 | One bar per pitch, in order, with the shortened name and the likes and comments copied. |
| AnalyticsPage.BarsAddUpToTotal | src/pages/AnalyticsPage.tsx:31-40 | The bars' likes add up to the likes total. |
| AnalyticsPage.CountTags | src/pages/AnalyticsPage.tsx:44 | The inner loop keeps the histogram invariant over the tags seen so far. |
| AnalyticsPage.AllTags | src/pages/AnalyticsPage.tsx:44 | Every tag of every pitch with a tag list is among the tags counted; a null list adds none. |
| AnalyticsPage.BumpKeepsHistogram | src/pages/AnalyticsPage.tsx:44 | Incrementing a tag already counted keeps the histogram exact for the tags seen plus that one. |
| AnalyticsPage.NewKeepsHistogram | src/pages/AnalyticsPage.tsx:44 | A first occurrence adds the tag with count 1 and keeps the histogram exact. |
| AnalyticsPage.SlicesOfHistogram | src/pages/AnalyticsPage.tsx:45 | The `Object.entries` slices of an exact histogram name each tag once, cover every tag, carry its count, and add up to the number of tags. |
| AnalyticsPage.TagHistogram | src/pages/AnalyticsPage.tsx:43-45 | Each distinct tag appears once, with its number of occurrences across all pitches (null tags read as none); the values add up to the number of tag entries. |
| AnalyticsPage.FetchAnalytics | src/pages/AnalyticsPage.tsx:20-46 | Nothing without a user or without rows; otherwise the pitch count, both totals, the bars and the tag histogram as above. |
| AnalyticsPage.BumpAsWritten | src/pages/AnalyticsPage.tsx:44 | As written, one increment on a plain object leaves every other key as it was. The tag gets a value unless it is `__proto__`. |
| AnalyticsPage.TagCountAsWritten | src/pages/AnalyticsPage.tsx:43-44 | As written, the record only has keys among the tags read, and no more keys than tags. |
| AnalyticsPage.ConstructorTagIsGarbled | src/pages/AnalyticsPage.tsx:44 | As written, a tag named `constructor` occurring once gets no count. |
| AnalyticsPage.ProtoTagIsDropped | src/pages/AnalyticsPage.tsx:44-45 | As written, a tag named `__proto__` is missing from the histogram. |
| AnalyticsPage.AsWrittenCountsOtherTags | src/pages/AnalyticsPage.tsx:43-45 | As written, when no tag is an inherited property name, the record's keys are distinct, are exactly the tags, and each holds the tag's number of occurrences. |
| AnalyticsPage.BumpAsWrittenCounts | src/pages/AnalyticsPage.tsx:44 | As written, one more tag that is not an inherited property name keeps the record exact. |
| CommentsSheet.DistinctAuthors | src/components/CommentsSheet.tsx:40 | Every comment author is listed exactly once, and nobody else. |
| CommentsSheet.ProfileIndex | src/components/CommentsSheet.tsx:46 | A user has an entry iff some fetched profile is theirs, and the entry is one of those profiles. |
| CommentsSheet.LastProfileWins | src/components/CommentsSheet.tsx:46 | When a user has several profiles, the last one is kept. |
| CommentsSheet.JoinProfiles | src/components/CommentsSheet.tsx:47 | Same length and order; every comment is kept as fetched; its profile is present iff a fetched profile matches its author, and then it is one of those. |
| CommentsSheet.FetchComments | src/components/CommentsSheet.tsx:31-49 | Nothing without comment data; otherwise the join, with missing profiles read as none. |
| CommentsSheet.AvatarText | src/components/CommentsSheet.tsx:78-86 | `"?"` without a profile or a name, otherwise the author's initials. |
| CommentsSheet.CommentBox.constructor | src/components/CommentsSheet.tsx:28-29 | An empty comment box, not loading. |
| CommentsSheet.CommentBox.AddComment | src/components/CommentsSheet.tsx:55-71 | A no-op for blank text or no user. Otherwise the trimmed text is inserted. On error nothing more is requested and the text is kept. On success the count is incremented, then the box is cleared and the list refetched. |
| MessagesPage.InConversation | src/pages/MessagesPage.tsx:68-71 | A message passing the filter is between the two participants, in one direction or the other. |
| MessagesPage.ConversationIsSymmetric | src/pages/MessagesPage.tsx:68-71 | The conversation test does not depend on which participant is "me". |
| MessagesPage.OnInsert | src/pages/MessagesPage.tsx:66-73 | A message of this conversation is appended at the end; any other leaves the list unchanged. |
| MessagesPage.OnInsertKeepsConversation | src/pages/MessagesPage.tsx:66-73 | A list holding only this conversation's messages keeps holding only those. |
| MessagesPage.OnInsertsAppendsConversation | src/pages/MessagesPage.tsx:66-73 | After any stream of inserts, the list is the old list followed by exactly the arrivals of this conversation, in order. |
| MessagesPage.SendMessage | src/pages/MessagesPage.tsx:84-92 | A no-op without a user, a selection or text. Otherwise it sends the trimmed text to the selected user and clears the box. |
| MessagesPage.SentMessageIsInConversation | src/pages/MessagesPage.tsx:68-72 | A sent message echoed back by the realtime feed passes the conversation filter. |

## Left out

- Supabase traffic is not modelled. This covers queries, inserts, deletes, `rpc`, realtime subscriptions and `auth.*`. Their results are parameters: row lists as `Option` (absent `data`), and errors as a `fails` flag.
- `deleteComment` is a delete followed by a refetch. It is pure I/O, so there is nothing to model.
- The profile-list and message-history fetches of the messages page are not modelled, for the same reason.
- `fetch`, `getReader()` and `TextDecoder` are not modelled. The body arrives as a sequence of already-decoded string chunks. A reader error in the middle of the stream is not modelled.
- The request sent to the chat endpoint (URL, headers, message history) is not modelled.
- `JSON.parse` and the property chain on its result are modelled as the `parse` parameter.
- `handleGoogleSignIn` is a redirect to an external provider, so it is not modelled.
- React rendering, state batching, effects and async interleaving are not modelled. Handlers are modelled as running to completion one at a time. Text-field setters are plain assignments and have no members.
- Toast wording, scrolling, animation, `Date` formatting and the recharts rendering are not modelled.
- Case mapping covers ASCII letters only. `toLowerCase`/`toUpperCase` on other characters are not modelled.
- `w[0]` takes the first UTF-16 code unit. Characters are treated as single units, so surrogate pairs are not modelled.
- RoadmapPage.RoundPercent: uses integer round-half-up instead of the floating-point `Math.round(c / n * 100)`. These can differ only where floating-point error moves a value across a half.
- RoadmapPage.Progress: an empty roadmap gives `None`, standing in for the `NaN` the page computes.
- AnalyticsPage.TagHistogram: lists tags in first-occurrence order. `Object.entries` puts integer-like keys first, in ascending order, and that ordering is not modelled.

## Findings

| source | as written | input that shows it | evidently intended | confidence | as-written member | corrected member |
|---|---|---|---|---|---|---|
| src/pages/AnalyticsPage.tsx:43-45 | The tag histogram counts into a plain object `{}` falling back to 0 for a missing key, so `tagCount[t]` reads inherited `Object.prototype` properties. | A pitch tagged `constructor` gives the value `"function Object() { [native code] }1"` instead of 1. A pitch tagged `__proto__` is silently dropped, because assigning a string to `__proto__` does nothing. | Every tag counted by its number of occurrences, e.g. with a `Map` or `Object.create(null)`. | not executed | AnalyticsPage.ConstructorTagIsGarbled | AnalyticsPage.TagHistogram |
