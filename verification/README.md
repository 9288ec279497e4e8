# SoulCircle decision rules in Dafny

SoulCircle is a mental-wellness web app. Users chat with AI counsellors, log a daily "inner weather" mood check-in, fill in a profile questionnaire, and use self-care tools. This project models the app's decision rules as pure Dafny functions over immutable datatypes:

- the chat room's send handler and persona fallback, with the server-side chat flow that builds the model request;
- the authentication gate: public paths, redirects and spinner-versus-page rendering;
- the document-store wrappers:
  - the `userId_YYYY-MM-DD` mood document id;
  - the half-open "today" query;
  - profile create versus merge;
  - null on a missing profile;
- the once-per-day check-in flow;
- the four form schemas;
- the small list and index rules of the questionnaire, saved-items, soothe-studio, dashboard, mood-history and sidebar pages.

The document store is a map from document id to document. Everything from the outside world is an input to the model:

- the store's write time (`serverTimestamp()`);
- the app server's local calendar day and its "today" window (the store wrappers are Next.js server actions);
- whether each store call answers;
- the language model's reply;
- the persona lookup.

Most modules follow one source file. Three are shared helpers:

- `Wrappers`: `Option` and `Result`.
- `Strings`: JavaScript's `trim` whitespace set, `startsWith`, `split(sep)[0]`, `toString` and `padStart`.
- `Seqs`: `filter`, `slice(-n)` and `reverse`.

Two more modules link pages rather than follow a file. `CheckboxGroup` holds the append/filter rule that every checkbox list shares. `ChatSession` links the chat room to the authentication provider.

## Model

| member | source | states |
|---|---|---|
| Strings.TrimEmptyIffBlank | src/components/chat-room.tsx:167 | `s.trim()` is empty exactly when every character of `s` is ECMAScript whitespace |
| Strings.TrimStart | src/components/chat-room.tsx:167 | the result is a suffix of the text: what was dropped is all whitespace, and the result does not start with whitespace; it is empty exactly for a blank text |
| Strings.TrimEnd | src/components/chat-room.tsx:167 | the result is a prefix of the text: what was dropped is all whitespace, and the result does not end with whitespace; it is empty exactly for a blank text |
| Strings.BeforeFirst | src/components/dashboard/page.tsx:97 | `s.split(sep)[0]` is the longest prefix of `s` without `sep`: it stops at the first `sep` or at the end |
| Strings.PadStart | src/lib/firebase/service.ts:65 | `padStart(width, fill)` keeps the text as its suffix, fills only on the left, and reaches exactly `max(width, length)` |
| Strings.Pad2RoundTrip | src/lib/firebase/service.ts:65 | below 100 the padded month or day is exactly two digits and reads back as the number |
| Strings.NatString | src/lib/firebase/service.ts:65 | `toString` of a non-negative number is a non-empty string of decimal digits without a leading zero |
| Strings.ParseNatString | src/lib/firebase/service.ts:65 | the decimal text `toString` prints reads back as the number |
| Seqs.TakeLast | src/components/chat-room.tsx:179 | `slice(-n)` keeps `min(n, length)` elements for `n >= 1`, and the whole list for `n = 0` (as `slice(-0)` does); what it keeps is exactly the list's suffix |
| Seqs.Filter | src/app/inner-weather/page.tsx:52-54 | `filter` keeps exactly the elements satisfying the test and is never longer than its input |
| Seqs.FilterCounts | src/app/inner-weather/page.tsx:52-54 | every kept value keeps its full multiplicity, and every other value is gone |
| Seqs.FilterAppend | src/app/inner-weather/page.tsx:52-54 | filtering commutes with concatenation, so surviving elements keep their relative order |
| Seqs.FilterKeepAll | src/app/saved-items/page.tsx:62 | a filter whose test holds for every element returns the list unchanged |
| Seqs.FilterIdempotent | src/app/profile/page.tsx:119-123 | filtering a second time with the same test changes nothing |
| Seqs.Reverse | src/app/mood-history/page.tsx:63 | `reverse` puts element `i` at position `length - 1 - i` |
| ChatFlow.ParseRole | src/ai/flows/chat-flow.ts:15-18 | a role name is accepted exactly when it is "user" or "model" |
| ChatFlow.RoleNameRoundTrip | src/ai/flows/chat-flow.ts:16 | each of the two roles reads back from its name |
| ChatFlow.AssembleMessages | src/ai/flows/chat-flow.ts:44-53 | the turn list has one turn per history message plus one, roles preserved, and the last turn is the user's |
| ChatFlow.AssembleRoundTrip | src/ai/flows/chat-flow.ts:44-53 | reading the turns back gives the history followed by the new user message: nothing dropped, reordered or altered |
| ChatFlow.BuildRequest | src/ai/flows/chat-flow.ts:55-57 | the system instruction is exactly the persona, and the turns are the history plus one |
| ChatFlow.Complete | src/ai/flows/chat-flow.ts:63-68 | the flow succeeds exactly when the model produced non-empty text, and the response is that text; an empty text or a generation error is an error |
| ChatFlow.ChatWithCounsellor | src/ai/flows/chat-flow.ts:32-69 | a successful response is never empty and is exactly what the model generated; the system prompt is the persona |
| ChatRoom.ResolvePersona | src/components/chat-room.tsx:94-117 | the persona is the fetched prompt when it is a non-empty string, and the generic persona when the lookup found nothing or threw; it is never empty |
| ChatRoom.FetchPersona | src/components/chat-room.tsx:47-123 | without the store the generic persona is used at once; with no counsellor or no user the room keeps loading; otherwise the lookup decides. Loading never ends without a usable persona |
| ChatRoom.InitialRoomPersonaReady | src/components/chat-room.tsx:63-67 | a fresh room satisfies the persona invariant |
| ChatRoom.OnSnapshot | src/components/chat-room.tsx:139-144 | the listener shows the stored list, or an empty list when the document or its list is missing, and touches nothing else |
| ChatRoom.GuardsAreTrimTests | src/components/chat-room.tsx:167-213 | the button is disabled exactly when sending, on input whose `trim()` is empty, or while the persona loads. The handler returns early exactly when sending, on such input, with no user, or with no persona |
| ChatRoom.EnabledButtonSends | src/components/chat-room.tsx:167-213 | with a usable persona and a signed-in user, an enabled button always gets past the handler's guard |
| ChatRoom.History | src/components/chat-room.tsx:179 | the context is the last `min(10, n)` messages seen at submit time, in order, reduced to role and text |
| ChatRoom.ReplyText | src/components/chat-room.tsx:187-202 | the message that ends an exchange is never empty: it is the model's text when the model produced some, and the fixed apology when generation failed or came back empty |
| ChatRoom.HandleSend | src/components/chat-room.tsx:165-211 | a blocked send is a no-op. Otherwise input is cleared and sending ends on every path. The model is asked only after the user message is stored, with the bounded history and the text. Online success stores exactly the user message then the reply. Any failure stores exactly one apology after whatever was stored. Offline appends exactly the user message then the reply or apology locally |
| ChatRoom.SendKeepsPersona | src/components/chat-room.tsx:165-211 | a send never disturbs the persona invariant |
| ChatRoom.NoSecondSendInFlight | src/components/chat-room.tsx:167 | while an exchange is in flight, another submit stores nothing and asks nothing |
| ChatRoom.HelloExchange | src/components/chat-room.tsx:165-211 | a "Hello" sent to an empty conversation stores exactly the user message then the reply; the model sees no history, and the listener then shows both |
| ChatSession.SignedInUid | src/components/chat-room.tsx:61 | the room sees a user id exactly when the provider has a user |
| ChatSession.OfflineSendNeverRuns | src/components/chat-room.tsx:167-193 | in any state the provider can reach without the authentication service, every send is stopped by the guard |
| ChatSession.OnlineSendReachesModel | src/components/chat-room.tsx:167-183 | with the service up and a user signed in, an allowed send reaches the model exactly when the user message is stored |
| AuthProvider.PublicPathsExactly | src/components/auth-provider.tsx:19-48 | the public paths are exactly the five listed plus "/", matched whole, so "/care-circle/zoya" is not public |
| AuthProvider.Start | src/components/auth-provider.tsx:29-43 | with an auth instance the provider becomes ready and keeps loading; without one it stops loading, not ready and with no user |
| AuthProvider.OnAuthStateChanged | src/components/auth-provider.tsx:33-36 | the listener records the user and ends loading |
| AuthProvider.ReachableInvariant | src/components/auth-provider.tsx:23-43 | a user is only ever present when the service is: true initially and kept by both transitions |
| AuthProvider.Redirect | src/components/auth-provider.tsx:45-64 | no redirect while loading. Redirect to "/login" exactly when the path is not public and the service is missing or nobody is signed in. Redirect to "/" exactly for a signed-in user on "/login". Nothing otherwise |
| AuthProvider.RedirectTargetsArePublic | src/components/auth-provider.tsx:19-61 | every redirect lands on a public path |
| AuthProvider.RedirectSettles | src/components/auth-provider.tsx:45-64 | in a reachable state the redirect target does not redirect again |
| AuthProvider.Render | src/components/auth-provider.tsx:67-90 | the page renders exactly when loading is over and there is a user or the path is public; otherwise a spinner |
| AuthProvider.GateAgreesWithRedirect | src/components/auth-provider.tsx:58-83 | a non-public page only renders for a signed-in user, and a spinner after loading always comes with a redirect to the login page |
| FirebaseService.DateStringRoundTrip | src/lib/firebase/service.ts:65 | for four-digit years the date string is ten characters and reads back as the day: the month shifted by one, month and day zero-padded |
| FirebaseService.ParseDateShape | src/lib/firebase/service.ts:65 | any digits-and-dashes date of the `YYYY-MM-DD` shape reads back field by field |
| FirebaseService.MoodDocIdRoundTrip | src/lib/firebase/service.ts:64-66 | the check-in id `userId_YYYY-MM-DD` reads back as its user and day |
| FirebaseService.MoodDocIdInjective | src/lib/firebase/service.ts:66 | two ids are equal only for the same user and the same day |
| FirebaseService.SaveMoodEntry | src/lib/firebase/service.ts:61-82 | fails without a store or when the write fails; otherwise that day's document becomes the data with the owner and the server time, replacing any earlier one, and nothing else changes |
| FirebaseService.SameDaySavesOverwrite | src/lib/firebase/service.ts:66-76 | two saves by one user on one day land on one document; the second fully replaces the first |
| FirebaseService.WindowHalfOpen | src/lib/firebase/service.ts:46-53 | a check-in written exactly at the start of the next day counts for that day, not for today |
| FirebaseService.HasMoodEntryForToday | src/lib/firebase/service.ts:43-58 | fails without a store or when the query fails; otherwise true exactly when some stored check-in of the user falls in `[start, end)` |
| FirebaseService.GetUserProfile | src/lib/firebase/service.ts:9-24 | fails without a store or on a store error; otherwise the stored document, or nothing exactly when none exists |
| FirebaseService.SaveUserProfile | src/lib/firebase/service.ts:26-41 | An existing document is merged: unmentioned fields keep their values, the data's fields are written, and `updatedAt` is now. A new document holds exactly the data plus `createdAt` and `updatedAt`, both now. Other users' documents are untouched |
| FirebaseService.SaveThenGetProfile | src/lib/firebase/service.ts:9-41 | reading back after a save returns a document carrying every saved field |
| FirebaseService.CreatedAtSurvivesUpdates | src/lib/firebase/service.ts:32-36 | the creation time of the first save survives later merging saves, while `updatedAt` moves on |
| InnerWeatherPage.OnSubmit | src/app/inner-weather/page.tsx:110-146 | no user: nothing saved and the spinner untouched. Otherwise the check-in is written exactly when the store answers and there is none today yet, and success is shown only after that write. Already logged: nothing saved, success flag unchanged. The spinner is off afterwards |
| InnerWeatherPage.Submit | src/app/inner-weather/page.tsx:169 | data the schema rejects never reaches the handler and changes nothing |
| InnerWeatherPage.OncePerDay | src/app/inner-weather/page.tsx:118-130 | after a check-in written inside today's window, any further submit that day writes nothing and reports "already logged" |
| CheckboxGroup.OnCheckedChange | src/app/inner-weather/page.tsx:48-56 | checking appends the option at the end, keeping the old list as prefix and without deduplication. Unchecking removes every copy and keeps every other entry with its multiplicity |
| CheckboxGroup.CheckThenUncheck | src/app/profile/page.tsx:116-123 | checking then unchecking an option that was absent gives back the original list |
| CheckboxGroup.UncheckIdempotent | src/app/profile/page.tsx:116-123 | unchecking twice is unchecking once |
| CheckboxGroup.UncheckKeepsOrder | src/app/inner-weather/page.tsx:51-55 | unchecking commutes with splitting the list, so other entries keep their relative order |
| CheckboxGroup.CheckedShowsState | src/app/profile/page.tsx:115-117 | a box is drawn with the state its last change gave it |
| ProfilePage.ToggleSupportSystem | src/app/profile/page.tsx:339-342 | the support-system list follows the same append and filter-out rule; no other field changes |
| ProfilePage.ToggleSupportOther | src/app/profile/page.tsx:43-45 | toggling "Other" sets `enabled` to the box state and always resets the text to empty; no other field changes |
| ProfilePage.RetickingOtherClearsText | src/app/profile/page.tsx:43-45 | unticking and re-ticking "Other" loses what had been typed |
| ProfilePage.ConditionalFieldsOnOfferedAnswers | src/app/profile/page.tsx:451-517 | the description shows for "Occasionally" and "Regularly" but not for "No" or no answer; the crisis notice shows only for "Yes currently" |
| ProfilePage.DefaultProfileRejected | src/app/profile/page.tsx:158-198 | the defaults hold country "India", mood `[5]` and no consent, and leave the goals list absent. The schema rejects the untouched form: consent and name are missing, and the goals list is reported as absent ("Required"), not as empty |
| ProfileSchema.Report | src/app/profile/form-schema.ts:6-61 | one rule's check reports its issue exactly when the rule fails |
| ProfileSchema.AllReportsComplete | src/app/profile/form-schema.ts:4-66 | the concatenated checks report an issue exactly when its rule fails |
| ProfileSchema.ProfileIssues | src/app/profile/form-schema.ts:4-66 | every failing rule is reported and nothing else; an absent goals list and an empty one are different issues |
| ProfileSchema.ProfileAcceptsIff | src/app/profile/form-schema.ts:6-61 | accepted exactly with a non-empty name, gender and self-harm answer, an age of at least 12, at least one reason, a goals list that is present and non-empty, and consent given |
| ProfileSchema.WithoutOptionalFields | src/app/profile/form-schema.ts:7-65 | the form with every optional field absent keeps the required ones |
| ProfileSchema.OptionalFieldsIrrelevant | src/app/profile/form-schema.ts:7-65 | the optional fields never decide acceptance |
| InnerWeatherSchema.InnerWeatherIssues | src/app/inner-weather/form-schema.ts:4-13 | a missing or out-of-range mood or stress is reported, and each issue only then |
| InnerWeatherSchema.InnerWeatherAcceptsIff | src/app/inner-weather/form-schema.ts:5-10 | accepted exactly with a mood in 1..5 and a stress level in 1..10, both inclusive |
| InnerWeatherSchema.InnerWeatherBoundaries | src/app/inner-weather/form-schema.ts:5-10 | 1 and 5 (mood) and 1 and 10 (stress) pass; 0, 6 and 11 fail |
| InnerWeatherSchema.InnerWeatherOptionalIrrelevant | src/app/inner-weather/form-schema.ts:6-12 | the optional fields never decide acceptance |
| SettingsSchema.SettingsIssues | src/app/settings/form-schema.ts:4-13 | name, age and gender issues are reported exactly when their rules fail |
| SettingsSchema.SettingsAgreesWithProfile | src/app/settings/form-schema.ts:5-9 | on the shared fields the settings form fails exactly when the profile questionnaire does; an accepted profile passes settings |
| JournalSchema.JournalIssues | src/app/mind-haven/form-schema.ts:5 | an entry is accepted exactly when its text is non-empty |
| JournalSchema.JournalDependsOnlyOnLength | src/app/mind-haven/form-schema.ts:4-7 | acceptance depends only on the text's length; an absent mood tag is fine |
| SavedItems.ToggleGoal | src/app/saved-items/page.tsx:48 | the goals with the id get `completed` set to the opposite of the shown status; others are unchanged; length and order are kept |
| SavedItems.ToggleTwiceRestores | src/app/saved-items/page.tsx:48 | two clicks, each with the status then shown, restore the original list |
| SavedItems.ToggleSameStatusIdempotent | src/app/saved-items/page.tsx:48 | repeating a toggle with the same shown status changes nothing more |
| SavedItems.HandleToggleGoal | src/app/saved-items/page.tsx:46-58 | a refused update restores the list exactly as it was before the click |
| SavedItems.DeleteAffirmation | src/app/saved-items/page.tsx:62 | exactly the affirmations with the id are removed |
| SavedItems.DeleteAbsentUnchanged | src/app/saved-items/page.tsx:62 | deleting an id nobody carries leaves the list unchanged |
| SavedItems.DeleteKeepsOrder | src/app/saved-items/page.tsx:62 | the remaining affirmations keep their order |
| SavedItems.HandleDeleteAffirmation | src/app/saved-items/page.tsx:60-72 | a refused delete restores the original list; an accepted one leaves no affirmation with the id |
| SootheStudio.TotalDuration | src/app/soothe-studio/page.tsx:61 | a cycle is at least as long as any of its phases |
| SootheStudio.TotalDurationAppend | src/app/soothe-studio/page.tsx:61 | the `reduce` sum is additive: two runs of phases back to back last as long as both together |
| SootheStudio.Pattern | src/app/soothe-studio/page.tsx:28-53 | every exercise has at least one phase, so the phase index can wrap around |
| SootheStudio.CycleLengths | src/app/soothe-studio/page.tsx:28-61 | box breathing lasts 16 s, ocean breath 10 s, and 4-7-8 lasts 19 s |
| SootheStudio.StartSession | src/app/soothe-studio/page.tsx:66-114 | starting a stopped session begins at the first phase |
| SootheStudio.Tick | src/app/soothe-studio/page.tsx:70-74 | a timer firing moves to `(i + 1) mod n`, so the index always names a phase |
| SootheStudio.TicksClimb | src/app/soothe-studio/page.tsx:72 | before the last phase, each firing moves exactly one phase on |
| SootheStudio.TicksCompose | src/app/soothe-studio/page.tsx:72 | `j` firings then `k` more are `j + k` firings |
| SootheStudio.FullCycleReturns | src/app/soothe-studio/page.tsx:72 | a full cycle of firings returns to the starting phase |
| SootheStudio.ChangeKind | src/app/soothe-studio/page.tsx:233-242 | picking another exercise keeps the circle running or stopped and shows the new pattern's first phase, so the phase index stays valid; re-picking the same one changes nothing |
| SootheStudio.StopSession | src/app/soothe-studio/page.tsx:81-115 | stopping resets the phase to the first |
| SootheStudio.NextAffirmation | src/app/soothe-studio/page.tsx:201-290 | with at most one affirmation "Next" does nothing; otherwise it moves to `(i + 1) mod n`, a different index, and the index stays valid |
| SootheStudio.StartFetch | src/app/soothe-studio/page.tsx:176-179 | a fetch first empties the list and resets the index |
| SootheStudio.FinishFetch | src/app/soothe-studio/page.tsx:180-192 | the answer installs the generated list, or leaves the list as it stands on failure; the spinner stops and the index is untouched. A failure keeps the carousel valid, and so does an answer at least as long as the list on show |
| SootheStudio.FetchStartsOver | src/app/soothe-studio/page.tsx:176-193 | after a fetch that runs alone, the carousel shows the first affirmation of the new list |
| SootheStudio.OverlappingFetches | src/app/soothe-studio/page.tsx:251-257 | the category picker stays enabled while a fetch is out: with two overlapping fetches and "Next" pressed twice in between, the second list is shown from its third affirmation, and the carousel is still valid because every list has five |
| SootheStudio.SubGoalChange | src/app/soothe-studio/page.tsx:140-144 | only the edited sub-goal changes; the length stays the same |
| SootheStudio.KeptSubGoals | src/app/soothe-studio/page.tsx:160 | the stored sub-goals are exactly those whose trimmed text is non-empty |
| SootheStudio.KeptSubGoalsNonBlank | src/app/soothe-studio/page.tsx:160 | the kept sub-goals are the non-whitespace ones, in the form's order |
| SootheStudio.SaveGoal | src/app/soothe-studio/page.tsx:146-174 | refused with no user or a blank main goal. Otherwise the goal is sent as typed, with the kept sub-goals and not completed. Once stored, the form resets to `''` and `['', '', '']`; on failure only the spinner stops |
| SootheStudio.BlankMainGoalRefused | src/app/soothe-studio/page.tsx:151-154 | a whitespace-only main goal is refused like an empty one |
| Dashboard.LeadingPart | src/components/dashboard/page.tsx:97 | the first word (or e-mail local part) is non-empty exactly when the text is non-empty and does not start with the separator |
| Dashboard.GreetingName | src/components/dashboard/page.tsx:97 | the greeting is the name's first word, else the e-mail up to '@', else "friend"; it is never empty |
| Dashboard.GreetsByFirstName | src/components/dashboard/page.tsx:97 | "Asha Rao" is greeted as "Asha" |
| Dashboard.GreetsByEmail | src/components/dashboard/page.tsx:97 | an empty name, or one starting with a space, falls back to the e-mail's local part |
| Dashboard.GreetsAsFriend | src/components/dashboard/page.tsx:97 | with neither usable, the greeting is "friend" |
| Dashboard.CompletenessVersusAcceptance | src/components/dashboard/page.tsx:98-132 | an accepted questionnaire counts as complete, so the prompt never shows for it; a named profile aged 5 is complete but not accepted |
| Dashboard.MissingProfilePrompts | src/components/dashboard/page.tsx:128-132 | with no stored profile the prompt shows once loading is over, and not before |
| MoodHistory.Insert | src/app/mood-history/page.tsx:42 | inserting into a newest-first list keeps it newest-first and adds exactly the one entry |
| MoodHistory.SortNewestFirst | src/app/mood-history/page.tsx:42 | the table is ordered by date, newest first, and is a permutation of the loaded entries |
| MoodHistory.SortKeepsSorted | src/app/mood-history/page.tsx:42 | an already newest-first list is left exactly as it is |
| MoodHistory.ChartData | src/app/mood-history/page.tsx:57-63 | one point per row, mood and stress copied unchanged, in reverse row order |
| MoodHistory.ChartIsChronological | src/app/mood-history/page.tsx:57-63 | the chart runs oldest to newest whenever the table runs newest to oldest |
| MoodHistory.ChartOfLoad | src/app/mood-history/page.tsx:42-63 | for any load, the chart has one point per entry in ascending date order |
| MoodHistory.MoodIcon | src/app/mood-history/page.tsx:21-27 | a face exists exactly for ratings 1 to 5: smiles for 4 and 5, frowns for 1 and 2 |
| MoodHistory.AcceptedMoodHasIcon | src/app/mood-history/page.tsx:21-27 | every rating the check-in form accepts has a face |
| AppSidebar.SubMenuActive | src/components/app-sidebar.tsx:53 | a menu is highlighted exactly when the path starts with one of its paths; an empty list never is |
| AppSidebar.Menu | src/components/app-sidebar.tsx:94-122 | both layouts start at "Home"; the two sub-menus appear exactly when somebody is signed in, a visitor sees plain links only, and the login link is offered exactly to visitors |
| AppSidebar.Footer | src/components/app-sidebar.tsx:125-129 | the logout link appears exactly when somebody is signed in |
| AppSidebar.SubLinkLightsItsMenu | src/components/app-sidebar.tsx:41-108 | in either layout the sidebar lists, a highlighted sub-link always comes with its menu highlighted |
| AppSidebar.NestedChatRoute | src/components/app-sidebar.tsx:53-99 | on "/care-circle/zoya" the tools menu is highlighted, its "Care Circle" link is not, and the history menu is not |

## Left out

- Firestore and authentication I/O: reads, writes, listeners, sign-in and sign-out. Stores are maps, and each call's success is an input.
- `saveMessage` and `getCounsellorPersona`: they are not defined in `src/lib/firebase/service.ts`. Their outcomes are inputs (`CallResults`, `PersonaLookup`).
- How concurrent appends to a chat document interleave: no such code exists to model. A send's stored messages are given in order.
- The chat flow: the sampling temperature (0.8) and the language model itself. A reply is any string or a failure.
- A refusal path for blocked content: the flow code has none. The model follows the code, in which an empty reply is an error and anything else is returned.
- The other AI flows (affirmations, resource finder, portrait), and the library's output-schema checks.
- React effects, timers and unmount guards (`isMounted`). Breathing is a discrete `Tick`; persona fetching is one transition.
- The persona and snapshot effects re-running on dependency changes: each run is modelled once.
- Toast and error texts beyond those the functions return; console logging.
- JavaScript `Date`: days are `(year, month counted from 0, day)`, "today" is an abstract `DayWindow`, and the `getDate() + 1` rollover is not modelled.
- Date string round trips hold for four-digit years only, where the year prints as four digits.
- Floats: zod numbers are integers here, and the bounds are inclusive.
- Firestore's deep merge of nested maps: `SaveUserProfile` merges top-level fields only. The profile's one nested field, `supportSystemOther`, is always written whole, so the result is the same.
- The stored `date` is the store's write time (`serverTimestamp()`), while the document id and the "today" window come from the app server's local calendar day. `OncePerDay` assumes the store's write time falls inside the app server's day window.
- InnerWeatherPage.OnSubmit: "the spinner is off afterwards" holds only once a user is signed in. With no user the handler returns before it touches `isSubmitting`, as the page does, so the flag keeps the value it had.
- SootheStudio.FinishFetch: answers are applied in whatever order they arrive; the model does not schedule them. The category picker (src/app/soothe-studio/page.tsx:251-257) stays enabled during a fetch, so the last answer to land wins even when it is for an earlier category, and the index carries over from the list it replaces. The contract covers that case; it does not say which category the shown list belongs to.
- SootheStudio.SubGoalChange: requires an index of an existing sub-goal. The page only calls it for its three rendered inputs; JavaScript would grow the array otherwise.
- SavedItems.HandleToggleGoal: on success the contract states only that the notice is a success, not its wording ("Goal marked as complete." or "... incomplete."). A goal keeps only its id, main goal and `completed` flag.
- MoodHistory.SortNewestFirst: stability of the sort among equal dates is not stated (insertion puts the earlier entry first, as a stable sort does).
- MoodHistory.ChartData: the axis label (`format(date, 'MMM d')`) is not modelled; the point keeps the date instead.
- `ConditionalInput` on the profile page: it watches a separate form instance, so its visibility is not a predicate of the answers.
- The profile page's own submit handler only logs and shows an alert. It does not call `saveUserProfile`.
- The settings page's handlers: thin store wrappers, plus a delete button enabled when the input reads `DELETE`.
- Static pages, layout, landing content, counsellor pages, seeding and configuration: no decision logic.
