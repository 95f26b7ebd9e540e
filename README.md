# Dynamic Island: a Dafny model

This project models the logic core of an Android "Dynamic Island" overlay, written in Kotlin. These parts are covered:

- **`IslandStateManager`** holds one `IslandState`. Six operations (`updateMusic`, `updateCall`, `showNotification`, `dismissNotification`, `updateCharging`, `toggleExpanded`) each copy the state with one snapshot replaced and a mode chosen by a small local rule.
- **`IslandModels`** defines the 13-value `IslandMode` enumeration and the snapshot records, with their default values.
- **`IslandNotificationListener`** routes a posted notification to one of three paths: navigation, clock (timer or stopwatch), or a generic notification. It drops the notifications the island must not show, names the app and colours it. It handles removal too.
- **`CallStateTracker`** reacts to RINGING, OFFHOOK and IDLE, and runs a one-second duration ticker.
- **`TimerManager`** runs a stopwatch or countdown that ticks every 100 ms.
- **`SystemTracker`** polls the network byte counters (turning them into speed texts), polls the silent, do-not-disturb and Bluetooth indicators, and reacts to Bluetooth broadcasts.
- **The overlay's decision logic**: the clock formatters, the countdown clamp, the caller label, the indicator dots, the gesture dispatch, the size targets of the expand and collapse animation, the glow, and the notification auto-dismiss.

Each Kotlin source file becomes one Dafny module, plus two support modules:

- `Wrappers` holds `Option`.
- `KotlinLang` holds the Kotlin semantics the code relies on:
  - 32-bit `toInt()` wrap-around;
  - division and remainder that truncate toward zero;
  - `toString()` of integers, `padStart`, `contains`, `lowercase`, `isBlank` and `substringAfterLast`.

Pure code is modelled as functions, and code that updates fields as classes:

- The reducer is a set of pure transition functions, `Apply*`. The `Manager` class replaces its `state` field with their results.
- The trackers, the timer and the view are classes whose fields are the source's fields.
- A runnable posted to a `Handler` is modelled as a count of queued posts.
- A producer's call into the manager (`updateCall(...)`, `updateTimer(...)`, …) is modelled as the value the step returns: the snapshot it publishes.
- Inputs from outside the code are parameters: the clock, the contact lookup, the app label and icon, the byte counters, the ringer mode, the interruption filter, the SDK level, the Bluetooth device name and the MB/s text.

## What the code does not do

The model follows the code. These facts about it are proved:

- **Music takes the island from a call.** `updateMusic` with a playing snapshot selects MUSIC whatever the current mode (IslandStateManager.kt:14-16). This includes a call still in progress (`IslandStateManager.MusicDisplacesCall`).
- **`secondaryMode` is never written.** It is declared in IslandModels.kt:11-25, but none of the six operations in IslandStateManager.kt writes it. It stays IDLE in every state they reach (`IslandStateManager.ReachableStates`). A call that rings during music is never shown beside the music (`IslandStateManager.MusicCallMusic`).
- **`glowColor` is never written.** It is declared in IslandModels.kt:11-25, but none of the six operations writes it. So the overlay's `updateGlow` always hides the glow for the states they reach (`IslandOverlayView.GlowStaysHidden`).
- **A stored notification is not shown again.** `showNotification` during a call only stores the notification (IslandStateManager.kt:32). When the call ends, `updateCall` falls back to MUSIC or IDLE, not to NOTIFICATION (`IslandStateManager.EndedCallKeepsNotificationHidden`).
- **A ringing call does not get the island back on dismiss.** `dismissNotification` tests `call.isActive` only (IslandStateManager.kt:40), so a call that only rings is not selected (`IslandStateManager.DismissIgnoresRingingCall`).
- **The six defined operations never select TIMER, NAVIGATION, NET_SPEED or the indicator modes.** They choose only IDLE, MUSIC, CALL, NOTIFICATION and CHARGING.
  - The producers publish the other snapshots through `updateTimer`, `updateNavigation`, `updateNetSpeed` and `updateIndicators`, but `IslandStateManager.kt` does not define those calls.
  - So what they do to the mode is not part of this model. Only the snapshots the producers hand to them are.

## Model

| member | source | states |
|---|---|---|
| IslandModels.Ordinal | app/src/main/java/com/dynamicisland/model/IslandModels.kt:5-9 | each mode's ordinal is its position in the declaration order |
| IslandModels.ModesAreClosed | app/src/main/java/com/dynamicisland/model/IslandModels.kt:5-9 | there are exactly 13 distinct modes and every mode is one of them |
| IslandModels.InitialState | app/src/main/java/com/dynamicisland/model/IslandModels.kt:11-25 | the default state is IDLE, has no secondary mode, is collapsed, has no notification and glow colour 0 |
| IslandModels.DefaultSnapshots | app/src/main/java/com/dynamicisland/model/IslandModels.kt:27-77 | default snapshots demand nothing; the default speed texts are "0 B/s"; the default Bluetooth fields are empty and off |
| IslandStateManager.ApplyMusic | app/src/main/java/com/dynamicisland/model/IslandStateManager.kt:12-18 | the music snapshot is always stored; MUSIC iff playing; stopping music releases only MUSIC (to IDLE); nothing else changes |
| IslandStateManager.ApplyCall | app/src/main/java/com/dynamicisland/model/IslandStateManager.kt:20-28 | CALL iff the call is active or ringing; an ended call falls back from CALL to MUSIC or IDLE and leaves other modes alone; nothing else changes |
| IslandStateManager.ApplyShowNotification | app/src/main/java/com/dynamicisland/model/IslandStateManager.kt:30-35 | the notification is always stored; under CALL, mode and expansion are kept; otherwise NOTIFICATION and expanded |
| IslandStateManager.ApplyDismissNotification | app/src/main/java/com/dynamicisland/model/IslandStateManager.kt:37-47 | clears the notification and collapses; each resulting mode holds exactly when its guard is the first one true, in the order active call, playing music, charging, IDLE |
| IslandStateManager.ApplyCharging | app/src/main/java/com/dynamicisland/model/IslandStateManager.kt:49-56 | CHARGING iff charging and the mode was IDLE or CHARGING; the only mode changes are IDLE to CHARGING and back |
| IslandStateManager.ApplyToggleExpanded | app/src/main/java/com/dynamicisland/model/IslandStateManager.kt:58 | flips `expanded` and changes nothing else |
| IslandStateManager.ApplyKeepsConsistent | app/src/main/java/com/dynamicisland/model/IslandStateManager.kt:12-58 | each operation keeps the invariant: a reducer mode, no secondary mode, no glow, and the current mode is still demanded |
| IslandStateManager.RunKeepsConsistent | app/src/main/java/com/dynamicisland/model/IslandStateManager.kt:12-58 | any sequence of operations keeps the invariant |
| IslandStateManager.ReachableStates | app/src/main/java/com/dynamicisland/model/IslandStateManager.kt:9-58 | every state reachable from the initial one satisfies the invariant |
| IslandStateManager.RunLeavesOtherSnapshots | app/src/main/java/com/dynamicisland/model/IslandStateManager.kt:12-58 | no sequence of operations changes the timer, weather, net-speed, navigation or indicator snapshots |
| IslandStateManager.ApplyIdempotent | app/src/main/java/com/dynamicisland/model/IslandStateManager.kt:12-56 | applying any operation except toggle twice with the same argument is the same as applying it once |
| IslandStateManager.ToggleTwice | app/src/main/java/com/dynamicisland/model/IslandStateManager.kt:58 | toggling twice is the identity |
| IslandStateManager.MusicDisplacesCall | app/src/main/java/com/dynamicisland/model/IslandStateManager.kt:14-16 | playing music takes the island from a call still in progress; the call snapshot still demands it |
| IslandStateManager.EndedCallKeepsNotificationHidden | app/src/main/java/com/dynamicisland/model/IslandStateManager.kt:22-26 | when a call ends, a notification stored during it is kept but not shown |
| IslandStateManager.DismissIgnoresRingingCall | app/src/main/java/com/dynamicisland/model/IslandStateManager.kt:39-44 | a dismiss during a call that only rings does not select CALL |
| IslandStateManager.MusicCallMusic | app/src/main/java/com/dynamicisland/model/IslandStateManager.kt:12-28 | music, then a ringing call, then hang-up gives MUSIC, then CALL with secondary IDLE, then MUSIC |
| IslandStateManager.Manager.constructor | app/src/main/java/com/dynamicisland/model/IslandStateManager.kt:9 | the manager starts in the default state, which satisfies the invariant |
| IslandStateManager.Manager.UpdateMusic | app/src/main/java/com/dynamicisland/model/IslandStateManager.kt:12-18 | the new state is `ApplyMusic` of the old one; the invariant is kept |
| IslandStateManager.Manager.UpdateCall | app/src/main/java/com/dynamicisland/model/IslandStateManager.kt:20-28 | the new state is `ApplyCall` of the old one; the invariant is kept |
| IslandStateManager.Manager.ShowNotification | app/src/main/java/com/dynamicisland/model/IslandStateManager.kt:30-35 | the new state is `ApplyShowNotification` of the old one; the invariant is kept |
| IslandStateManager.Manager.DismissNotification | app/src/main/java/com/dynamicisland/model/IslandStateManager.kt:37-47 | the new state is `ApplyDismissNotification` of the old one; the invariant is kept |
| IslandStateManager.Manager.UpdateCharging | app/src/main/java/com/dynamicisland/model/IslandStateManager.kt:49-56 | the new state is `ApplyCharging` of the old one; the invariant is kept |
| IslandStateManager.Manager.ToggleExpanded | app/src/main/java/com/dynamicisland/model/IslandStateManager.kt:58 | the new state is `ApplyToggleExpanded` of the old one; the invariant is kept |
| IslandNotificationListener.PackageListsDisjoint | app/src/main/java/com/dynamicisland/service/IslandNotificationListener.kt:20-33 | the ignored, navigation and clock package lists do not overlap |
| IslandNotificationListener.AppColor | app/src/main/java/com/dynamicisland/service/IslandNotificationListener.kt:126-136 | the fallback purple is chosen iff the package contains none of the ten brand names |
| IslandNotificationListener.FirstRuleColor | app/src/main/java/com/dynamicisland/service/IslandNotificationListener.kt:126-136 | reference lookup: the colour is the fallback or the colour of a rule in the table |
| IslandNotificationListener.AppColorIsFirstMatch | app/src/main/java/com/dynamicisland/service/IslandNotificationListener.kt:126-136 | the `when` chain equals a first-match lookup in the brand table |
| IslandNotificationListener.AppName | app/src/main/java/com/dynamicisland/service/IslandNotificationListener.kt:50-52 | the platform label when the lookup succeeds; otherwise the dot-free suffix of the package right after its last '.', or the whole package when it has no '.' |
| IslandNotificationListener.FirstNonEmpty | app/src/main/java/com/dynamicisland/service/IslandNotificationListener.kt:73-77 | the first candidate found with a non-empty value, or "" iff there is none |
| IslandNotificationListener.HandleNavigation | app/src/main/java/com/dynamicisland/service/IslandNotificationListener.kt:67-79 | the step-by-step fill gives an active snapshot with the text (or the title), the first found distance (km in title, m in title, km in text) and the first found time to go (title, then text) |
| IslandNotificationListener.TitleDistanceFirst | app/src/main/java/com/dynamicisland/service/IslandNotificationListener.kt:73-76 | a km distance found in the title always wins |
| IslandNotificationListener.FindClock | app/src/main/java/com/dynamicisland/service/IslandNotificationListener.kt:87-88 | the clock pattern's leftmost match, or none iff it matches nowhere |
| IslandNotificationListener.ClockGroups | app/src/main/java/com/dynamicisland/service/IslandNotificationListener.kt:91-92 | the groups of the match at `i` read as decimal numbers: two minute digits when the greedy alternative matches, else one, then the two second digits; each below 100 |
| IslandNotificationListener.ClockMs | app/src/main/java/com/dynamicisland/service/IslandNotificationListener.kt:87-94 | (mins·60 + secs)·1000 from the groups of the leftmost clock match, and 0 when there is none; always a whole number of seconds between 0 and 99:99 |
| IslandNotificationListener.ClockAtStart | app/src/main/java/com/dynamicisland/service/IslandNotificationListener.kt:87-93 | "mm:ss" at the start of the text is read as (mm·60+ss)·1000 |
| IslandNotificationListener.TimerAndStopwatchTogether | app/src/main/java/com/dynamicisland/service/IslandNotificationListener.kt:82-84 | both keyword groups can be true for one notification |
| IslandNotificationListener.SystemTimer | app/src/main/java/com/dynamicisland/service/IslandNotificationListener.kt:81-105 | the four cases: running timer (target = elapsed only for a countdown), stopped timer, alarm notification, nothing |
| IslandNotificationListener.SystemTimerNonNegative | app/src/main/java/com/dynamicisland/service/IslandNotificationListener.kt:89-96 | a published timer never has a negative elapsed time or target |
| IslandNotificationListener.OnNotificationPosted | app/src/main/java/com/dynamicisland/service/IslandNotificationListener.kt:35-59 | routes in source order: no extras gives nothing; ongoing navigation goes to navigation; a clock app goes to the timer path; dropped notifications give nothing; everything else is shown with name, icon and colour |
| IslandNotificationListener.OnNotificationRemoved | app/src/main/java/com/dynamicisland/service/IslandNotificationListener.kt:107-116 | exactly the updates whose guards hold and nothing else: navigation is cleared iff an ongoing navigation notification went; the timer is stopped iff a clock app's notification went while in TIMER; never both |
| CallStateTracker.RingingAsWrittenHidesContactName | app/src/main/java/com/dynamicisland/service/CallStateTracker.kt:46-49 | as written, a caller with a number is always labelled by that number, whatever the contact lookup found |
| CallStateTracker.RingingAsWrittenExample | app/src/main/java/com/dynamicisland/service/CallStateTracker.kt:47-49 | as written, contact "Ali" calling from "5551234" is labelled "5551234" |
| CallStateTracker.RingingCallAsWritten | app/src/main/java/com/dynamicisland/service/CallStateTracker.kt:46-49 | the ringing call as the source builds it: incoming, not active, duration 0; `callerName` holds the number (or ""); `callerNumber` holds the looked-up name, else the number, else "Bilinmeyen" |
| CallStateTracker.RingingCall | app/src/main/java/com/dynamicisland/service/CallStateTracker.kt:46-49 | the evidently intended ringing call (the source swaps the two caller fields; see Findings): incoming, not active, duration 0; the number field holds the number (or ""); without a number the name is "Bilinmeyen" |
| CallStateTracker.RingingShowsContactName | app/src/main/java/com/dynamicisland/service/CallStateTracker.kt:46-49 | the corrected ringing call is labelled with the looked-up name, else the number, else "Bilinmeyen", and it takes the island |
| CallStateTracker.ElapsedSeconds | app/src/main/java/com/dynamicisland/service/CallStateTracker.kt:65 | a 32-bit value; within range it is the whole seconds elapsed, rounded down |
| CallStateTracker.CallTracker.constructor | app/src/main/java/com/dynamicisland/service/CallStateTracker.kt:18-19 | no start time and no ticker |
| CallStateTracker.CallTracker.StopDur | app/src/main/java/com/dynamicisland/service/CallStateTracker.kt:70 | afterwards no ticker is set and none is queued |
| CallStateTracker.CallTracker.StartDur | app/src/main/java/com/dynamicisland/service/CallStateTracker.kt:63-69 | afterwards exactly one tick is queued, however many were queued before |
| CallStateTracker.CallTracker.Handle | app/src/main/java/com/dynamicisland/service/CallStateTracker.kt:44-61 | RINGING publishes the ringing call as the source builds it (`RingingCallAsWritten`) and changes nothing; OFFHOOK publishes the current call as active, sets the start time and restarts the ticker; IDLE stops the ticker, publishes the empty call and clears the start time; other states do nothing |
| CallStateTracker.CallTracker.Tick | app/src/main/java/com/dynamicisland/service/CallStateTracker.kt:64-67 | publishes the current call with only the duration replaced, and only when a start time is set |
| CallStateTracker.CallTracker.Stop | app/src/main/java/com/dynamicisland/service/CallStateTracker.kt:38-42 | the ticker is stopped |
| CallStateTracker.OffhookTakesIsland | app/src/main/java/com/dynamicisland/service/CallStateTracker.kt:51-55 | the call published on OFFHOOK always takes the island |
| CallStateTracker.TickKeepsCaller | app/src/main/java/com/dynamicisland/service/CallStateTracker.kt:65-66 | a duration tick keeps CALL and the caller fields |
| CallStateTracker.IdleReleasesIsland | app/src/main/java/com/dynamicisland/service/CallStateTracker.kt:57-58 | hanging up leaves CALL for MUSIC or IDLE |
| TimerManager.Tick | app/src/main/java/com/dynamicisland/service/TimerManager.kt:25-31 | it reschedules iff the countdown is not done; a finished countdown publishes (false, false, target, target); otherwise it publishes a running state with the elapsed time |
| TimerManager.StopwatchNeverEnds | app/src/main/java/com/dynamicisland/service/TimerManager.kt:27-30 | a stopwatch tick always reschedules and is running |
| TimerManager.CountdownDisplay | app/src/main/java/com/dynamicisland/service/TimerManager.kt:27-29 | a finished countdown shows 0 left; a running one shows the positive time left |
| TimerManager.CountdownShrinks | app/src/main/java/com/dynamicisland/service/TimerManager.kt:26-29 | the time shown for a countdown never increases |
| TimerManager.StoppedIsDefault | app/src/main/java/com/dynamicisland/service/TimerManager.kt:19-20 | `stop` publishes the default timer state |
| TimerManager.Timer.constructor | app/src/main/java/com/dynamicisland/service/TimerManager.kt:10-13 | stopwatch mode, zero times, no runnable |
| TimerManager.Timer.Go | app/src/main/java/com/dynamicisland/service/TimerManager.kt:22-34 | afterwards exactly one tick is queued; the mode and times are unchanged |
| TimerManager.Timer.StartStopwatch | app/src/main/java/com/dynamicisland/service/TimerManager.kt:15 | stopwatch, started now, target 0, one tick queued |
| TimerManager.Timer.StartTimer | app/src/main/java/com/dynamicisland/service/TimerManager.kt:17 | countdown of `ms`, started now, one tick queued |
| TimerManager.Timer.Stop | app/src/main/java/com/dynamicisland/service/TimerManager.kt:19-20 | nothing is queued and no runnable is set; publishes the stopped state |
| TimerManager.Timer.RunTick | app/src/main/java/com/dynamicisland/service/TimerManager.kt:25-31 | publishes `Tick`'s state and leaves one tick queued iff `Tick` reschedules |
| SystemTracker.FmtSpd | app/src/main/java/com/dynamicisland/service/SystemTracker.kt:93-97 | from 1 MiB upward the MB text is used |
| SystemTracker.FmtSpdBytes | app/src/main/java/com/dynamicisland/service/SystemTracker.kt:94 | below 1024 the text is exactly the count's `toString()` followed by \" B/s\": its digits, with no leading zero, after a '-' exactly when the count is negative |
| SystemTracker.FmtSpdKilobytes | app/src/main/java/com/dynamicisland/service/SystemTracker.kt:95 | from 1024 to 1 MiB the text is exactly `toString()` of k followed by \" KB/s\", with 1 ≤ k ≤ 1023 and k·1024 ≤ b < (k+1)·1024 |
| SystemTracker.NetSnapshot | app/src/main/java/com/dynamicisland/service/SystemTracker.kt:42-45 | active iff either delta exceeds 10000; both texts are `fmtSpd` of the deltas |
| SystemTracker.NegativeDeltasInactive | app/src/main/java/com/dynamicisland/service/SystemTracker.kt:44 | counters that went backwards never count as active |
| SystemTracker.IndicatorPoll | app/src/main/java/com/dynamicisland/service/SystemTracker.kt:55-63 | camera, mic and screen recording are copied; silent iff ringer mode is silent; DnD iff API ≥ 23 and the filter is not ALL; the Bluetooth fields agree |
| SystemTracker.BluetoothChanged | app/src/main/java/com/dynamicisland/service/SystemTracker.kt:72-76 | only the Bluetooth fields change, and they agree |
| SystemTracker.PollIdempotent | app/src/main/java/com/dynamicisland/service/SystemTracker.kt:61-75 | polling twice with the same readings is polling once; a broadcast of the polled device changes nothing |
| SystemTracker.NoDndBeforeM | app/src/main/java/com/dynamicisland/service/SystemTracker.kt:58-59 | before API level 23, DnD is never reported |
| SystemTracker.Tracker.constructor | app/src/main/java/com/dynamicisland/service/SystemTracker.kt:21-25 | zero counters and no runnables |
| SystemTracker.Tracker.Start | app/src/main/java/com/dynamicisland/service/SystemTracker.kt:27-68 | records the counters and adds one net runnable and one indicator runnable |
| SystemTracker.Tracker.Stop | app/src/main/java/com/dynamicisland/service/SystemTracker.kt:29-33 | removes only the runnables the fields refer to |
| SystemTracker.Tracker.NetTick | app/src/main/java/com/dynamicisland/service/SystemTracker.kt:39-47 | publishes the snapshot for the deltas against the previous counters and remembers the new counters |
| SystemTracker.StartTwiceThenStop | app/src/main/java/com/dynamicisland/service/SystemTracker.kt:27-49 | starting twice and then stopping leaves one net runnable and one indicator runnable posting |
| IslandOverlayView.FmtD | app/src/main/java/com/dynamicisland/overlay/IslandOverlayView.kt:769 | the text is at least five characters long |
| IslandOverlayView.FmtDRoundTrip | app/src/main/java/com/dynamicisland/overlay/IslandOverlayView.kt:769 | for s ≥ 0 the seconds field is two digits below 60, and reading "MM:SS" back gives s |
| IslandOverlayView.FmtDNegative | app/src/main/java/com/dynamicisland/overlay/IslandOverlayView.kt:769 | −5 seconds is written "00:-5" |
| IslandOverlayView.FmtMs | app/src/main/java/com/dynamicisland/overlay/IslandOverlayView.kt:770 | within range, reading the text back gives the whole seconds |
| IslandOverlayView.FmtMsFull | app/src/main/java/com/dynamicisland/overlay/IslandOverlayView.kt:771-775 | the `fmtMs` text followed by "." and the padded hundredths |
| IslandOverlayView.FmtMsFullRoundTrip | app/src/main/java/com/dynamicisland/overlay/IslandOverlayView.kt:771-775 | within range, reading "MM:SS.CC" back gives `ms / 10` |
| IslandOverlayView.TimerDisplayMs | app/src/main/java/com/dynamicisland/overlay/IslandOverlayView.kt:318 | a stopwatch shows its elapsed time; a countdown shows the time left, never negative |
| IslandOverlayView.CallerLabel | app/src/main/java/com/dynamicisland/overlay/IslandOverlayView.kt:460 | the caller name when it is non-empty, else the number when that is non-empty, else \"Bilinmeyen\"; never empty |
| IslandOverlayView.DotIf | app/src/main/java/com/dynamicisland/overlay/IslandOverlayView.kt:218-223 | one dot when on, none when off |
| IslandOverlayView.DotCount | app/src/main/java/com/dynamicisland/overlay/IslandOverlayView.kt:215-224 | one dot per indicator that is on; no dots iff all are off |
| IslandOverlayView.DotEnds | app/src/main/java/com/dynamicisland/overlay/IslandOverlayView.kt:218-223 | the camera dot comes first and the Bluetooth dot last |
| IslandOverlayView.DotColours | app/src/main/java/com/dynamicisland/overlay/IslandOverlayView.kt:218-223 | dots use only the five colours; blue iff Bluetooth; purple iff DnD |
| IslandOverlayView.OnLongPress | app/src/main/java/com/dynamicisland/overlay/IslandOverlayView.kt:116-145 | play/pause iff MUSIC, end call iff CALL, stop timer iff TIMER, dismiss iff NOTIFICATION; in every other mode expand iff collapsed (otherwise nothing) |
| IslandOverlayView.OnDoubleTap | app/src/main/java/com/dynamicisland/overlay/IslandOverlayView.kt:147-154 | skip to the next track iff MUSIC, otherwise nothing |
| IslandOverlayView.TapTwice | app/src/main/java/com/dynamicisland/overlay/IslandOverlayView.kt:105-113 | two single taps give back the starting state |
| IslandOverlayView.LongPressNeverCollapses | app/src/main/java/com/dynamicisland/overlay/IslandOverlayView.kt:139-143 | in the other modes a long press only expands |
| IslandOverlayView.ExpandedHeight | app/src/main/java/com/dynamicisland/overlay/IslandOverlayView.kt:680-691 | between 60 and 175 dp; exactly 90 for IDLE, WEATHER and SILENT_MODE |
| IslandOverlayView.TargetSize | app/src/main/java/com/dynamicisland/overlay/IslandOverlayView.kt:675-693 | expanded: screen width less 32, the mode's height, radius 28; collapsed: idle height, radius 16, width 50 wider than idle iff not IDLE |
| IslandOverlayView.GlowAfter | app/src/main/java/com/dynamicisland/overlay/IslandOverlayView.kt:192-213 | hidden when disabled or colour 0; shown on a new colour; unchanged on the same colour |
| IslandOverlayView.GlowStaysHidden | app/src/main/java/com/dynamicisland/overlay/IslandOverlayView.kt:192-195 | the glow is never shown for a state the manager can reach |
| IslandOverlayView.OverlayView.constructor | app/src/main/java/com/dynamicisland/overlay/IslandOverlayView.kt:23-45 | idle size, the default state, glow enabled, nothing queued |
| IslandOverlayView.OverlayView.UpdateDots | app/src/main/java/com/dynamicisland/overlay/IslandOverlayView.kt:215-224 | the dot row becomes `IndicatorDots` of the indicators; nothing else changes |
| IslandOverlayView.DotRow | app/src/main/java/com/dynamicisland/overlay/IslandOverlayView.kt:216-223 | adding the dots one indicator after another builds exactly `IndicatorDots` |
| IslandOverlayView.OverlayView.AutoDismiss | app/src/main/java/com/dynamicisland/overlay/IslandOverlayView.kt:708-712 | exactly one dismiss is queued, 4000 ms ahead |
| IslandOverlayView.OverlayView.Update | app/src/main/java/com/dynamicisland/overlay/IslandOverlayView.kt:182-190 | animates only when `expanded` changes; re-arms the dismiss for an expanded notification; redraws the glow and dots |
| IslandOverlayView.OverlayView.RunDueDismiss | app/src/main/java/com/dynamicisland/overlay/IslandOverlayView.kt:710-711 | the queued dismiss fires once its time has come |
| IslandOverlayView.OverlayView.UpdateSizes | app/src/main/java/com/dynamicisland/overlay/IslandOverlayView.kt:173-180 | a new idle size, applied at once only when collapsed and IDLE |
| IslandOverlayView.OverlayView.SetGlowEnabled | app/src/main/java/com/dynamicisland/overlay/IslandOverlayView.kt:171 | sets the flag and nothing else |
| KotlinLang.ToInt32 | app/src/main/java/com/dynamicisland/service/CallStateTracker.kt:65 | `toInt()` gives a 32-bit value congruent modulo 2^32, and the identity within range |
| KotlinLang.Argb | app/src/main/java/com/dynamicisland/service/IslandNotificationListener.kt:127 | a colour literal is negative iff its alpha byte's top bit is set |
| KotlinLang.Quot | app/src/main/java/com/dynamicisland/overlay/IslandOverlayView.kt:769 | division truncates toward zero |
| KotlinLang.Rem | app/src/main/java/com/dynamicisland/overlay/IslandOverlayView.kt:769 | the remainder takes the dividend's sign, and a = b·q + r |
| KotlinLang.NatToString | app/src/main/java/com/dynamicisland/service/SystemTracker.kt:94 | non-empty decimal digits without a leading zero |
| KotlinLang.IntToString | app/src/main/java/com/dynamicisland/service/SystemTracker.kt:94 | starts with '-' iff the value is negative; the digits after the sign denote the magnitude and have no leading zero |
| KotlinLang.CanonicalDigits | app/src/main/java/com/dynamicisland/service/SystemTracker.kt:94-95 | digits without a leading zero are `toString()` of their value, so a value and those two facts pin the printed text |
| KotlinLang.NatToStringRoundTrip | app/src/main/java/com/dynamicisland/overlay/IslandOverlayView.kt:769 | reading `toString()` back gives the number |
| KotlinLang.PadStart | app/src/main/java/com/dynamicisland/overlay/IslandOverlayView.kt:769 | the padded length, the original string as suffix, and pad characters before it |
| KotlinLang.PaddedValue | app/src/main/java/com/dynamicisland/overlay/IslandOverlayView.kt:769 | zero-padding does not change the value the digits denote |
| KotlinLang.Contains | app/src/main/java/com/dynamicisland/service/IslandNotificationListener.kt:83-84 | true iff the substring occurs at some index |
| KotlinLang.Lowercase | app/src/main/java/com/dynamicisland/service/IslandNotificationListener.kt:82 | same length; each character mapped by the case map |
| KotlinLang.SubstringAfterLast | app/src/main/java/com/dynamicisland/service/IslandNotificationListener.kt:52 | a suffix without the delimiter, preceded by the delimiter when shorter than the input |

## Left out

- Drawing, views, animation curves, the pulse animation and the `compact` / `expanded` layouts are left out. Only the decisions the view makes are modelled: sizes, dots, glow, gestures and the dismiss timer.
- `dp()` density scaling is left out: sizes are in whole dp, and the screen width is given in dp.
- IslandOverlayView.TargetSize: takes the screen width in dp, whereas the source subtracts the scaled margin from a width in pixels.
- SystemTracker.FmtSpd: the `String.format("%.1f MB/s")` branch is floating point. It is the `formatMb` parameter, and nothing is stated about its text.
- Concurrency is left out: `MutableStateFlow.update`'s compare-and-set loop, `collectLatest` and the main-thread handler. Every operation is one atomic step, applied in order.
- Handler timing is reduced to counts of queued posts, or their due times for the dismiss.
- The platform calls are parameters and are not modelled themselves: the contact lookup (`resolve`), `getApplicationLabel`, `TrafficStats`, the audio, notification and Bluetooth managers, and `System.currentTimeMillis`. `getAppIcon` and the telecom `endCall` are left out; the icon is a parameter.
- Registering and unregistering the telephony callback and the Bluetooth receiver is left out. The listener choice by SDK level is left out too; the incoming number is an `Option` that is None on the newer path.
- IslandNotificationListener.HandleNavigation: the distance and time-to-go regular expressions are not matched. Their `find` results are the `NavFinds` input, while the clock pattern has a real matcher.
- IslandNotificationListener.OnNotificationPosted: the `try`/`catch` that swallows every exception is left out. So is the delayed `cancelNotification` when the hide-status-bar preference is on, which depends on preferences that are not part of this model.
- KotlinLang.Lowercase: maps only ASCII letters. Kotlin's `lowercase()` maps all of Unicode. Every keyword looked for is ASCII.
- KotlinLang.IsWhitespace: lists the JVM whitespace and space characters by code. Characters outside the Basic Multilingual Plane are not considered.
- Long values are unbounded integers: 64-bit overflow of times and byte counters is not modelled. The 32-bit `toInt()` is modelled.
- The semantics of `updateTimer`, `updateNavigation`, `updateNetSpeed` and `updateIndicators` are left out. They are called but not defined in `IslandStateManager.kt`, so those producers' results are modelled as what they publish.
- The media session tracker, the power receiver, the boot receiver, the main activity, the overlay service and the preferences store are not part of this model.

## Findings

| source | as written | input that shows it | evidently intended | confidence | as-written member | corrected member |
|---|---|---|---|---|---|---|
| app/src/main/java/com/dynamicisland/service/CallStateTracker.kt:48-49 | `CallState(false, true, number ?: "", name.ifEmpty { number ?: "Bilinmeyen" }, 0)` passes the number as `callerName` and the looked-up name as `callerNumber` | number "5551234" whose contact lookup gives "Ali": the call view (IslandOverlayView.kt:460) shows "5551234", and the avatar shows "55" | `callerName` is the looked-up name (else the number, else "Bilinmeyen") and `callerNumber` is the number | high; not executed | CallStateTracker.RingingAsWrittenHidesContactName | CallStateTracker.RingingShowsContactName |
