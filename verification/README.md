# Meeat screen logic, modelled in Dafny

Meeat is a SwiftUI prototype of a meet-for-dinner app. The user picks a
location on a map and a time window. They browse candidate profiles and send a
match invitation. Then they wait at the restaurant until both people have
arrived, which unlocks a chat. The app has no engine behind it: its logic is a
handful of small state machines and guards written inline in view closures.
This project models those state machines and proves their rules:

- the four-step match wizard (`MatchFlowStep`), with its forward and back moves
  and the step indicator;
- the candidate carousel (Skip, Refresh and Send Match), which is index
  arithmetic modulo the list size;
- the arrival and chat-unlock flags of the meeting screen, and the three status
  views derived from them;
- the chat transcript, which only grows while the chat sheet stays open, and its
  "non-blank after trimming" guard;
- the onboarding gates: a location must be selected, and the time window must
  be valid.

Each Swift file is one Dafny module, except `MeetUpWaitView.swift`, whose chat
sheet is the separate module `Chat`. `Models` holds the shared value types from
`SharedModels.swift`. `Carousel` holds the index arithmetic that the Skip and
Refresh closures of two screens share. A screen whose closures update `@State`
in place is a `class` with those fields. Each method of the class is one closure
or one tap and has an `ensures` clause; those that change state also have
`modifies`, and those that only read it (such as a button's enabled test) do not. Derived views
(`statusMessage`, the step indicator, the card sections) are functions. For the
meeting screen, the chat and the onboarding root, the class also exposes its
state as a value (`State()`). Each method's postcondition ties the new value to
a pure transition function (`Next`, `ChatNext`, `RootNext`). Lemmas over whole
event sequences (`Run`) then prove what holds in every session.

Conventions:

- `Date` is an integer number of seconds.
- `UUID` is an opaque `Uuid`. An arbitrary one is passed in as a parameter
  wherever the source calls `UUID()`; nothing in the model requires the ids to
  be distinct.
- Coordinates are opaque.
- The clock (`Date()`) is a parameter `now`.
- Swift's `%` truncates toward zero and traps on a zero divisor. `Models.Rem`
  models it. On the non-negative indices used here it agrees with Dafny's `%`.
- A hidden button has no callers, so its method `requires` the state in which
  the button is shown. A disabled button ignores taps, so its method leaves the
  state unchanged when the gate is closed.
- Each delayed effect from `DispatchQueue.main.asyncAfter` is a separate event.
  These are `MatchedUserArrives`, `ReceiveReply` and `InviteAccepted`. Each
  requires the state that scheduled its timer. For the arrival and the reply a
  "pending" field records the timer. `InviteAccepted` requires `inviteSent`,
  which only the send that schedules it sets.
- The emoji in the chat strings are written by code point: U+1F60A and U+1F604.

## Model

| member | source | states |
|---|---|---|
| Models.Rem | Meeat/MainHomeView.swift:41-50 | Swift's truncating `%` on a positive divisor. A non-negative dividend gives a result in `[0, b)`, and a non-positive one gives a result in `(-b, 0]`. A dividend already in `[0, b)` is returned unchanged. |
| Models.RemCongruent | Meeat/MainHomeView.swift:41-50 | The result differs from the dividend by a multiple of the divisor. Together with the sign and bound clauses of `Rem`, this fixes it as Swift's truncating remainder. |
| Carousel.SkipIndex | Meeat/MatchFlowView.swift:109-114 | With at most one candidate the index is unchanged. Otherwise, from an in-range index it moves to the next index and wraps from the last to 0, so it stays in `[0, count)`. |
| Carousel.RefreshIndex | Meeat/MainHomeView.swift:47-51 | Refresh always moves to the next index, wrapping from the last to 0, and stays in range. It requires a non-empty list, because `% count` traps on zero. |
| Carousel.SkipAgreesWithRefresh | Meeat/MainHomeView.swift:39-51 | On a non-empty list with the index in range, Skip and Refresh give the same new index. This includes the one-candidate list. |
| Carousel.Run | Meeat/MainHomeView.swift:39-51 | From an in-range index over a non-empty list, any sequence of Skip and Refresh taps keeps the index in `[0, count)`. |
| Carousel.RunIsRotation | Meeat/MainHomeView.swift:39-51 | After k taps of either kind the index is `(i + k) % count`. Each tap rotates the carousel by exactly one place. |
| Carousel.EveryCandidateReachable | Meeat/MatchFlowView.swift:109-114 | From any shown candidate, fewer than `count` Skip taps reach any other candidate. |
| CandidateCard.DisplayedCandidate | Meeat/MatchCandidateView.swift:13-15 | The displayed candidate is an element of the list. The subscript requires the index to be in range. |
| CandidateCard.Quoted | Meeat/MatchCandidateView.swift:75 | The quote line is the quote wrapped in one double quote on each side. |
| CandidateCard.RenderCard | Meeat/MatchCandidateView.swift:44-109 | The name and age are always shown. The MBTI, job, quote, interests and food sections each appear exactly when their field is non-empty, and each shows that field. |
| CandidateCard.Press | Meeat/MatchCandidateView.swift:123-147 | Skip reaches `onSkip` only. Send Match reaches `onSendMatch` with exactly the displayed candidate. Refresh reaches `onRefresh` when the parent supplied one, and otherwise does nothing. |
| MapSearch.SetTimeEnabled | Meeat/MapSearchView.swift:89 | Set Time is enabled exactly when a location is selected. |
| MapSearch.SetTimeColor | Meeat/MapSearchView.swift:85 | The Set Time button is blue exactly when it is enabled and grey exactly when it is disabled. |
| MapSearch.MapSearchView.constructor | Meeat/MapSearchView.swift:6-10 | The view starts with the parent's selection and no map centre. |
| MapSearch.MapSearchView.CameraIdle | Meeat/MapSearchView.swift:27-30 | After a camera stop, the map centre and the selected pin hold the same coordinate. The selection is then set, so Set Time is enabled. |
| MapSearch.MapSearchView.MyLocationTapped | Meeat/MapSearchView.swift:32-34 | Returns the location manager's last fix unchanged. |
| MapSearch.MapSearchView.TapSetTime | Meeat/MapSearchView.swift:76-89 | `onSetTime` fires exactly when a location is selected. So it always fires once the camera has come to rest. |
| TimeSelector.WindowGates | Meeat/TimeSelectorView.swift:70-89 | Start Matching is enabled exactly when the end time is strictly after the start time. The warning shows exactly when it is disabled. The button is pink when enabled and grey when disabled. |
| TimeSelector.IsTimeValid | Meeat/TimeSelectorView.swift:14-16 | With whole-second dates, a valid window lasts at least one second. An empty or reversed window is refused. |
| TimeSelector.EqualTimesInvalid | Meeat/TimeSelectorView.swift:14-16 | A window whose end equals its start is invalid, and the warning shows for it. |
| TimeSelector.InitialChoicesDistinct | Meeat/TimeSelectorView.swift:3-12 | The three initial preferences are pairwise distinct. |
| TimeSelector.TimeSelectorView.constructor | Meeat/TimeSelectorView.swift:5-12 | The preferences start as the first three categories, and each one is a category. |
| TimeSelector.TimeSelectorView.Choose | Meeat/TimeSelectorView.swift:95-107 | A picker changes only its own preference, and only to an offered category. So every preference is always an element of `FoodCategories`. |
| TimeSelector.TimeSelectorView.PickStartTime | Meeat/TimeSelectorView.swift:40 | The start-time picker sets the start time. |
| TimeSelector.TimeSelectorView.PickEndTime | Meeat/TimeSelectorView.swift:49 | The end-time picker sets the end time. |
| TimeSelector.TimeSelectorView.TapStartMatching | Meeat/TimeSelectorView.swift:70-83 | `onStartMatching` fires exactly when the window is valid, that is, exactly when no warning is shown. |
| MatchFlow.Forward | Meeat/MatchFlowView.swift:79-108 | The forward moves are location→time, time→matching and matching→wait. Each advances the wizard by exactly one step. |
| MatchFlow.BackOffered | Meeat/MatchFlowView.swift:127 | The toolbar offers Back exactly on the second and third steps (time and matching). |
| MatchFlow.BackTarget | Meeat/MatchFlowView.swift:130-139 | Back from any step other than the first moves to the step just before it. On the first step (the `default` branch) the step is unchanged. |
| MatchFlow.BackUndoesForward | Meeat/MatchFlowView.swift:127-139 | Back after a forward move returns to the earlier step, wherever Back is offered. Moving forward after Back returns to the step where Back was pressed. |
| MatchFlow.BackOnlyFromMiddleSteps | Meeat/MatchFlowView.swift:127-139 | Back is offered only on the time and matching steps, and moves exactly one step back. So the `meetUpWait` branch of the switch can never run. |
| MatchFlow.Indicator | Meeat/MatchFlowView.swift:151-158 | There are four flags. Flag 1 is set iff the step is past location. Flags 2 and 3 are set iff the step is matching or wait. Flag 4 is set iff the step is wait. |
| MatchFlow.IndicatorPrefixClosed | Meeat/MatchFlowView.swift:152-157 | A set flag implies that every earlier flag is set, and flags 2 and 3 always agree. |
| MatchFlow.MatchFlowView.constructor | Meeat/MatchFlowView.swift:11-68 | The flow starts at location selection with index 0, no location and a one-hour window. |
| MatchFlow.MatchFlowView.CameraIdle | Meeat/MatchFlowView.swift:81-86 | A camera stop on the map step sets the selected location. |
| MatchFlow.MatchFlowView.TapSetTime | Meeat/MatchFlowView.swift:81-86 | Set Time moves location→time only if a location is selected. Otherwise nothing changes. |
| MatchFlow.MatchFlowView.PickStartTime | Meeat/MatchFlowView.swift:89-91 | The start picker writes its binding. This is possible only on the time step. |
| MatchFlow.MatchFlowView.PickEndTime | Meeat/MatchFlowView.swift:89-91 | The end picker writes its binding. This is possible only on the time step. |
| MatchFlow.MatchFlowView.TapStartMatching | Meeat/MatchFlowView.swift:89-95 | Start Matching moves time→matching only for a valid window. Otherwise nothing changes. |
| MatchFlow.MatchFlowView.TapSendMatch | Meeat/MatchFlowView.swift:103-108 | Send Match hands over exactly the candidate on screen and moves to the wait step. The list is unchanged. |
| MatchFlow.MatchFlowView.TapSkip | Meeat/MatchFlowView.swift:109-114 | Skip sets the index to `SkipIndex` of the old index. It changes only the index, never the list. The index stays in range. |
| MatchFlow.MatchFlowView.TapBack | Meeat/MatchFlowView.swift:126-142 | Back, where it is offered, moves exactly one step back. The invariant is kept: index in range, a location on every later step, and a valid window on matching and wait. |
| MainHome.InviteStatusColor | Meeat/MainHomeView.swift:134 | "Accepted" is green, "Waiting for acceptance" is orange, and every other status is grey. Each direction is proved. |
| MainHome.MainHomeView.constructor | Meeat/MainHomeView.swift:3-23 | The screen starts at index 0 with no refreshes, no invitation and the wait screen closed. |
| MainHome.MainHomeView.Skip | Meeat/MainHomeView.swift:39-43 | Skip changes the index only when there are at least two candidates, and then to the next index with wrap-around. Nothing else changes. |
| MainHome.MainHomeView.Refresh | Meeat/MainHomeView.swift:47-51 | Refresh adds exactly one to `refreshCount`, stamps `lastRefreshDate`, and moves to the same index that Skip would. |
| MainHome.MainHomeView.SendMatch | Meeat/MainHomeView.swift:33-34 | Send Match sets `inviteSent`. |
| MainHome.MainHomeView.InviteAccepted | Meeat/MainHomeView.swift:35-37 | The delayed effect opens the wait screen. This can happen only after an invitation was sent, and neither flag is ever reset. |
| MeetUpWait.StatusMessage | Meeat/MeetUpWaitView.swift:21-29 | The three messages correspond one-to-one to three cases: both arrived, only the user arrived, and the user not arrived (even if the matched user has). |
| MeetUpWait.StatusIcon | Meeat/MeetUpWaitView.swift:165-173 | The three icons correspond one-to-one to the same three cases. |
| MeetUpWait.StatusColor | Meeat/MeetUpWaitView.swift:175-183 | Green, blue and orange correspond one-to-one to the same three cases. |
| MeetUpWait.StatusViewsAgree | Meeat/MeetUpWaitView.swift:21-34 | Two flag states show the same message iff they show the same icon, iff they show the same colour. Chat can be unlocked iff the status is green, iff the message is "Both parties have arrived". |
| MeetUpWait.CanUnlockChat | Meeat/MeetUpWaitView.swift:31-34 | Chat can be unlocked exactly when the status line reads "Both parties have arrived". It never unlocks before the user has arrived. |
| MeetUpWait.Next | Meeat/MeetUpWaitView.swift:116-159 | The arrival tap, the timer, the unlock tap and the sheet's dismissal never reset an arrival flag, and each keeps the invariant. |
| MeetUpWait.RunKeepsInvariant | Meeat/MeetUpWaitView.swift:116-159 | Over any sequence of available events, no arrival flag is reset. The matched user never arrives before the user. Chat is shown only once both have arrived. |
| MeetUpWait.ChatOpensOnlyAfterBothArrive | Meeat/MeetUpWaitView.swift:137-140 | From the initial screen, any session that shows the chat has both parties arrived. |
| MeetUpWait.ChatCanBeUnlocked | Meeat/MeetUpWaitView.swift:116-140 | The gate can be passed. From the initial screen, arriving, then the matched user's arrival, then Unlock Chat shows the chat. |
| MeetUpWait.MeetUpWaitView.constructor | Meeat/MeetUpWaitView.swift:10-12 | Both arrival flags, and the chat flag, start false. |
| MeetUpWait.MeetUpWaitView.TapArrived | Meeat/MeetUpWaitView.swift:116-122 | The tap is available only while the user has not arrived. It sets the user's flag, leaves the matched user's flag alone and starts the timer. |
| MeetUpWait.MeetUpWaitView.MatchedUserArrives | Meeat/MeetUpWaitView.swift:120-122 | The timer, started only by the arrival tap, sets the matched user's flag. After it, chat can be unlocked. |
| MeetUpWait.MeetUpWaitView.TapUnlockChat | Meeat/MeetUpWaitView.swift:137-140 | The tap is available only when chat can be unlocked, and it shows the chat. |
| MeetUpWait.MeetUpWaitView.DismissChat | Meeat/MeetUpWaitView.swift:159 | Dismissing the sheet clears `showingChat` through its binding. Chat can still be unlocked, so Unlock Chat can open it again. |
| Chat.TrimLeading | Meeat/MeetUpWaitView.swift:246 | The result is a suffix of the input that does not start with whitespace. Everything dropped is whitespace. |
| Chat.TrimTrailing | Meeat/MeetUpWaitView.swift:246 | The result is a prefix of the input that does not end with whitespace. Everything dropped is whitespace. |
| Chat.Trim | Meeat/MeetUpWaitView.swift:246-247 | The trimmed text is empty exactly when the input is all whitespace. Otherwise it neither starts nor ends with whitespace. |
| Chat.TrimKeepsMiddle | Meeat/MeetUpWaitView.swift:246 | The trimmed text is a contiguous slice `s[a..b]` of the input, and everything outside it is whitespace. So a sent message is what was typed, minus blanks at its edges. |
| Chat.TrimmedIsFixed | Meeat/MeetUpWaitView.swift:246 | Text that is non-blank and has no whitespace at either end is left unchanged by trimming. |
| Chat.TrimIdempotent | Meeat/MeetUpWaitView.swift:246-251 | Trimming the trimmed text changes nothing, so a stored message is already trimmed. |
| Chat.CanSend | Meeat/MeetUpWaitView.swift:236-247 | The send button's gate and `sendMessage`'s guard accept the text exactly when it has a character that is not whitespace. |
| Chat.InitialChat | Meeat/MeetUpWaitView.swift:188-191 | The chat opens with exactly two non-blank greetings stamped with the opening time: the other party's first, then the user's. The input is empty and no reply is pending. |
| Chat.InitialChatInv | Meeat/MeetUpWaitView.swift:188-191 | The two opening greetings are balanced: one from each side, with no reply pending. The user's greeting is non-blank and trimmed. |
| Chat.ChatNext | Meeat/MeetUpWaitView.swift:245-277 | A blank send changes nothing. A non-blank send appends exactly one user message with the trimmed text, keeps the earlier messages, clears the input and starts one reply. A reply appends one message from the other side. The transcript never shrinks. |
| Chat.AppendKeepsInv | Meeat/MeetUpWaitView.swift:256-277 | Appending one message keeps the invariant when these hold: a user message is trimmed and adds one pending reply, and a reply removes one. |
| Chat.SendKeepsInv | Meeat/MeetUpWaitView.swift:245-262 | A send keeps the invariant, whether the text is blank or not. |
| Chat.ReplyKeepsInv | Meeat/MeetUpWaitView.swift:259-277 | A canned reply that arrives while one is pending keeps the invariant. |
| Chat.ChatNextKeepsInv | Meeat/MeetUpWaitView.swift:245-277 | Each event keeps the invariant. The user's message count equals the other side's count plus the pending replies. Every user message is non-blank and trimmed. |
| Chat.TranscriptOnlyGrows | Meeat/MeetUpWaitView.swift:245-277 | Over any session the old transcript is a prefix of the new one. Replies never outnumber the user's messages, and the invariant holds. |
| Chat.ChatView.constructor | Meeat/MeetUpWaitView.swift:187-191 | The chat opens with the two greetings and an empty input field. |
| Chat.ChatView.TypeText | Meeat/MeetUpWaitView.swift:229 | The text field sets the input and touches nothing else. |
| Chat.ChatView.SendEnabled | Meeat/MeetUpWaitView.swift:236 | The send button is enabled exactly when the input has a character that is not whitespace. |
| Chat.ChatView.SendMessage | Meeat/MeetUpWaitView.swift:245-257 | Blank input after trimming changes nothing. Otherwise it appends exactly one user message with the trimmed text, keeps the earlier messages and clears the input. |
| Chat.ChatView.ReceiveReply | Meeat/MeetUpWaitView.swift:259-277 | A pending reply appends one message from the other side, drawn from the five canned answers. |
| Onboarding.CurrentScreen | Meeat/ContentView.swift:17-53 | The main tabs show iff `userInRequest` is set. Otherwise step 0 shows the map, step 1 shows the time screen, and any other step shows nothing. |
| Onboarding.InitialWindowValid | Meeat/ContentView.swift:14-15 | The initial one-hour window passes the validity check, so Start Matching starts enabled. |
| Onboarding.RootNext | Meeat/ContentView.swift:40-53 | Once the main tabs show, no event changes anything. A chosen location is never cleared. |
| Onboarding.RootNextKeepsInv | Meeat/ContentView.swift:40-53 | Each event keeps the invariant. The step is 0 or 1. Step 1 has a location. The main tabs have a location and a valid window. |
| Onboarding.RunKeepsRootInv | Meeat/ContentView.swift:17-53 | Any sequence of events keeps the invariant. |
| Onboarding.SessionReachesTabsThroughGates | Meeat/ContentView.swift:17-53 | From the initial state, the empty screen never shows. The main tabs show only after a location was chosen and a valid window set. |
| Onboarding.TabsReachable | Meeat/ContentView.swift:17-53 | The gates can be passed. From the initial state, choosing a location, then Set Time, then Start Matching on the initial window shows the main tabs with that location. |
| Onboarding.MainTabsAreFinal | Meeat/ContentView.swift:18-30 | `userInRequest` is never reset, so the main tabs stay shown with their state. A chosen location stays chosen. |
| Onboarding.ContentView.constructor | Meeat/ContentView.swift:11-15 | The root starts with `userInRequest` false, step 0 and no location, on the map screen, with a one-hour window. |
| Onboarding.ContentView.CameraIdle | Meeat/ContentView.swift:43-46 | A camera stop on step 0 sets the location through the binding. |
| Onboarding.ContentView.TapSetTime | Meeat/ContentView.swift:43-46 | Step 0's callback moves to step 1, and fires only when a location is selected. |
| Onboarding.ContentView.PickStartTime | Meeat/ContentView.swift:47-49 | The start picker on step 1 writes its binding. |
| Onboarding.ContentView.PickEndTime | Meeat/ContentView.swift:47-49 | The end picker on step 1 writes its binding. |
| Onboarding.ContentView.TapStartMatching | Meeat/ContentView.swift:47-49 | Step 1's callback calls `onComplete`, which sets `userInRequest`. It fires only for a valid window, and the main tabs then show. |

## Left out

- Layout, styling, images (`AsyncImage`, `UIImage(named:)`), map rendering and camera control. These are view code with no logic to state.
- The map SDK wrappers: `GoogleMapView.swift`, `MapSelectView.swift` (`GoogleMapSelector`, `LocationManager`) and `MapKitView.swift`. The camera-stop callback and the location manager's last fix are inputs here.
- `MainTabView.swift`, `MeeatApp.swift` and `Config.example.swift`. They only compose views and set up API keys.
- The hard-coded candidate, ranking and invitation lists. Each constructor takes the candidate list as a parameter and requires it to be non-empty. The source's lists have four entries.
- The labels of the step indicator, and the formatting of dates, coordinates, ratings, and a candidate's name and age. These are display text.
- The `print` in MatchFlowView's `onSendMatch`. It is console output.
- `onProfileTapped`, the profile sheet, and the restaurant-info sheet (`showRestaurantInfo`). These only open or close a sheet.
- The chat sheet's reopening: `MeetUpWait.MeetUpWaitView.DismissChat` clears `showingChat`, and Unlock Chat then opens a new `ChatView` (`Chat.ChatView.constructor`). The model does not link the two. So "the transcript only grows" (`Chat.TranscriptOnlyGrows`) holds for one opening of the sheet, and a reopened sheet starts again from the two greetings.
- Timing: every `asyncAfter` delay is an event that may come at any later point. The model does not capture that the events come after 1 or 2 seconds.
- The `?? "Okay"` fallback after `randomElement()`. The canned list is never empty, so the fallback cannot happen. The random pick is the parameter `answer` of `ReceiveReply`.
- MatchFlowView's `onRefresh`. The flow does not pass one, so the Refresh button there does nothing (`CandidateCard.Press` with `hasOnRefresh` false). `refreshCount` and `lastRefreshDate` never change in that flow.
- MainHome.MainHomeView.Refresh: `refreshCount` is an unbounded integer. Swift's `refreshCount += 1` traps at `Int.max`, which no real session reaches.
- MatchFlow.MatchFlowView.constructor and Onboarding.ContentView.constructor: the `?? Date()` fallback of the initial end time is left out. Adding one hour to a date cannot fail in the Gregorian calendar, so the fallback is unreachable in practice.
- Chat.Trim: trims only ASCII space, tab, line feed and carriage return. The source's `.whitespacesAndNewlines` is Unicode-wide. The send button's gate and `sendMessage`'s guard share `CanSend`, just as they share one call in the source.
- MatchFlow.MatchFlowView.constructor and Onboarding.ContentView.constructor: the end time is exactly `now + 3600`. The source reads the clock twice, so its end time is one hour after a slightly later instant.
- Chat.InitialChat: both greetings are stamped with one `now` and take two arbitrary ids. The source calls `Date()` and `UUID()` once per greeting, so its timestamps may differ slightly and its ids are fresh.
- The chosen food preferences need not stay pairwise distinct. The pickers allow repeats, and the source never checks for them. Only the initial three are distinct.
- Child views are not separate objects inside the flows. `MatchFlowView` and `ContentView` handle the map and time pickers' binding writes directly. `MapSearchView` and `TimeSelectorView` are also modelled as separate classes.
