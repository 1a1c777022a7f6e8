# youtube.android player lifecycle, in Dafny

This project models the part of the `meez/youtube.android` Adobe AIR native
extension that holds decisions. The extension wraps the YouTube Android Player
SDK for an ActionScript host. It has two front ends to the SDK player:

- **`YouTubePlayerAdapter`** is the newer one. It moves through
  INITIALIZING → PLAYER_INIT → READY, then DISPOSING → DISPOSED. It keeps a
  FIFO queue of player actions. `execute` always enqueues. The queue is
  drained only in READY, and an action that throws an `Exception` does not
  stop the rest. Every player event callback does nothing unless the adapter
  is READY; `onInitializationFailure` is not gated.
- **`AndroidYoutubeContext`** is the older one. Its states are INITIALIZING,
  STOPPED, PLAYING, DISPOSING and DISPOSED. A one-slot pending video holds a
  load request made before the player exists, and that request is replayed
  when the player is initialized, unless the player was restored or the state
  is DISPOSING or DISPOSED. It routes ActionScript command names to
  player calls. `doSeek` never seeks to or past a known end. Events to
  ActionScript are dropped while the state is DISPOSING or DISPOSED.

Both front ends use the same two pieces of code: the table that turns an SDK
error reason into a (message, code) pair, and the `generateViewId` counter.
Each class keeps its own static counter, which hands out ids in
[1, 0x00FFFFFF] and rolls over to 1.

Files:

- `Outcomes.dfy`: `Option` and `Outcome`, the latter for "returns normally or throws".
- `JavaInt.dfy`: Java `int` as a subset type, and the truncating `/ 1000`.
- `ViewIds.dfy`: the view-id counter. It holds the step function, its closed
  form, proofs of distinctness and period, and a `ViewIdGenerator` class.
- `Events.dfy`: SDK error reasons and the error table, the SDK callbacks, and
  the response both front ends give to each callback.
- `Adapter.dfy`: the adapter. A pure `Lifecycle` snapshot has one step
  function per operation, and lemmas talk about whole runs. The class
  `YouTubePlayerAdapter` is proved to follow those step functions.
- `Context.dfy`: the context. It has pure command routing, seek clamping and
  state transitions, plus the class `AndroidYoutubeContext`.

How the surroundings are modelled:

- The SDK player is an opaque `Player` token.
- An adapter action is an id plus whether running it throws. Running one
  appends it to the ghost log `ran`, and a throwing one is also added to `failed`.
- The context's requests to the player go into the ghost log `calls`.
- Whatever is sent to ActionScript or to the adapter's event callback is added
  to a list of `Notification`s.
- Answers that come from the SDK are parameters: the duration, the current
  time, and `isPlaying`.
- Times arrive already converted to integer milliseconds.

Behaviours of the code a reader may not expect; the model follows the code:

- `dispose` ends in DISPOSED only when the views exist. In the adapter,
  `dispose` before `init` throws a null dereference before its `finally`
  (`getRootContainer`, YoutubePlayerAdapter.java:177), so the state stays
  DISPOSING.
- The context behaves the same way after no `initVideo`, and also on a second
  `dispose`, because the first one nulls the views
  (AndroidYoutubeContext.java:111, 130). These cases are the `NullReference`
  faults.
- The adapter's `onFragmentViewDestroyed` resets to INITIALIZING from any
  state, DISPOSED included. So "nothing runs after dispose" holds only until
  that callback (`Adapter.ClosedRunsNothing`).
- In the context, `onPlaying`, `onPaused` and `onStopped` change the state
  without checking it, and the dispatch gate looks at the new state. A late
  SDK callback after dispose therefore re-opens the gate
  (`Context.EventState`, whose last ensures states exactly when the result is
  closed).

## Model

| member | source | states |
|---|---|---|
| `JavaInt.SecondsOf` | android/src/meez/nativeExtensions/androidyoutube/YoutubePlayerAdapter.java:761-762 | Dividing milliseconds by 1000 truncates toward zero, as Java `int` division does. The remainder is in [0, 1000) for a non-negative input and in (-1000, 0] for a negative one. |
| `ViewIds.NextId` | android/src/meez/nativeExtensions/androidyoutube/YoutubePlayerAdapter.java:776-779 | The next counter value stays in [1, 0x00FFFFFF] and equals `id % 0x00FFFFFF + 1`. So the counter rolls over to 1 and never reaches 0. |
| `ViewIds.Iterate` | android/src/meez/nativeExtensions/androidyoutube/YoutubePlayerAdapter.java:768-785 | After any number of ids have been handed out, the counter is still in [1, 0x00FFFFFF]. |
| `ViewIds.IterateClosedForm` | android/src/meez/nativeExtensions/androidyoutube/YoutubePlayerAdapter.java:771-785 | After `k` calls the counter equals `(id - 1 + k) mod 0x00FFFFFF + 1`. |
| `ViewIds.IdsDistinctWithinPeriod` | android/src/meez/nativeExtensions/androidyoutube/AndroidYoutubeContext.java:791-805 | No id is handed out twice within 0x00FFFFFF consecutive calls. |
| `ViewIds.PeriodReturns` | android/src/meez/nativeExtensions/androidyoutube/AndroidYoutubeContext.java:796-800 | After exactly 0x00FFFFFF calls the counter is back at its starting value. |
| `ViewIds.IssuedDistinct` | android/src/meez/nativeExtensions/androidyoutube/AndroidYoutubeContext.java:788-805 | The ids a counter has handed out since it started at 1 are pairwise distinct, as long as there are at most 0x00FFFFFF of them. |
| `ViewIds.ViewIdGenerator.constructor` | android/src/meez/nativeExtensions/androidyoutube/YoutubePlayerAdapter.java:768 | The counter starts at 1, and no id has been handed out yet. |
| `ViewIds.ViewIdGenerator.Generate` | android/src/meez/nativeExtensions/androidyoutube/YoutubePlayerAdapter.java:771-785 | Returns the current value, which is in range, and advances the counter by `NextId`. The returned id is logged, and the log keeps the closed-form invariant. |
| `Events.ErrorEvent` | android/src/meez/nativeExtensions/androidyoutube/YoutubePlayerAdapter.java:320-366 | The error table. Code 0 if and only if overlay/too-small; 2 if and only if not-playable/autoplay-disabled/internal; 100 if and only if empty playlist; 101 if and only if user declined; 500 if and only if network/disconnection or an unlisted reason. Each group gets its fixed message. An unlisted reason is reported under its own enum name. |
| `Events.ReactionTo` | android/src/meez/nativeExtensions/androidyoutube/YoutubePlayerAdapter.java:302-470 | For each SDK callback: the timer starts if and only if playing, and stops if and only if paused/stopped. There is no message if and only if video-started, seek, stopped or not-buffering. The state or error message sent for every other callback is given. |
| `Events.TimeMessage` | android/src/meez/nativeExtensions/androidyoutube/AndroidYoutubeContext.java:689-690 | The time message carries whole seconds, truncated toward zero as Java's `int` division does. For a non-negative input each value is the floor of milliseconds / 1000, and for a negative one the ceiling. |
| `Events.TimerFollowsPlayback` | android/src/meez/nativeExtensions/androidyoutube/YoutubePlayerAdapter.java:593-609 | The time-update timer runs after a callback if and only if the callback is `onPlaying`, or the timer was already running and the callback neither paused nor stopped playback. So it runs while playing and is cancelled on pause or stop. The context's timer (AndroidYoutubeContext.java:608-624) behaves the same. |
| `Events.ReactionAppendsAtMostOne` | android/src/meez/nativeExtensions/androidyoutube/YoutubePlayerAdapter.java:302-470 | A callback only appends to what has been sent. It adds exactly one message, unless the callback is one of the silent ones (video started, seek, stopped, not buffering), and then it adds nothing. |
| `Adapter.AfterExecute` | android/src/meez/nativeExtensions/androidyoutube/YoutubePlayerAdapter.java:205-213 | `execute` appends the action at the back, so ran + queue grows by exactly that action. In READY the queue ends empty. Otherwise nothing runs and the queue grows by exactly one. The state never changes. |
| `Adapter.InitOutcome` | android/src/meez/nativeExtensions/androidyoutube/YoutubePlayerAdapter.java:143 | `init` succeeds if and only if the state is INITIALIZING. Otherwise it throws an illegal-state error naming the expected and the actual state. |
| `Adapter.AfterInit` | android/src/meez/nativeExtensions/androidyoutube/YoutubePlayerAdapter.java:138-168 | `init` leaves the state and the queue alone. The views exist afterwards if and only if they existed before or the state was INITIALIZING. |
| `Adapter.AfterViewCreated` | android/src/meez/nativeExtensions/androidyoutube/YoutubePlayerAdapter.java:475-496 | Acts only in INITIALIZING, moving to PLAYER_INIT with the queue untouched. In any other state it changes nothing. |
| `Adapter.AfterInitSuccess` | android/src/meez/nativeExtensions/androidyoutube/YoutubePlayerAdapter.java:276-298 | Acts only in PLAYER_INIT. It moves to READY and runs the whole queue, head first, leaving it empty. In any other state it changes nothing. |
| `Adapter.AfterViewDestroyed` | android/src/meez/nativeExtensions/androidyoutube/YoutubePlayerAdapter.java:499-503 | From any state, goes back to INITIALIZING. The queue is kept and nothing runs. |
| `Adapter.AfterDispose` | android/src/meez/nativeExtensions/androidyoutube/YoutubePlayerAdapter.java:171-200 | `dispose` always ends DISPOSING or DISPOSED, and ends DISPOSED if and only if `init` has built the views. Nothing runs. |
| `Adapter.StepRunsOnlyWhenReady` | android/src/meez/nativeExtensions/androidyoutube/YoutubePlayerAdapter.java:209-212 | An operation that runs any action leaves the adapter READY. |
| `Adapter.StepKeepsInv` | android/src/meez/nativeExtensions/androidyoutube/YoutubePlayerAdapter.java:575-590 | Every operation keeps the invariant that a READY adapter has an empty queue. |
| `Adapter.RunKeepsInv` | android/src/meez/nativeExtensions/androidyoutube/YoutubePlayerAdapter.java:283-295 | Any sequence of operations keeps that invariant. |
| `Adapter.StepConserves` | android/src/meez/nativeExtensions/androidyoutube/YoutubePlayerAdapter.java:205-213 | A single operation never loses or duplicates an action. Its ran + queue is the earlier one plus the action it issues, if any, and `ran` only grows. |
| `Adapter.RunConserves` | android/src/meez/nativeExtensions/androidyoutube/YoutubePlayerAdapter.java:579-589 | FIFO, exactly once: over any run, the actions that ran followed by those still queued equal the earlier ran + queue followed by the issued actions, in issue order. Nothing that ran is undone. |
| `Adapter.ClosedRunsNothing` | android/src/meez/nativeExtensions/androidyoutube/YoutubePlayerAdapter.java:209-210 | While the state is DISPOSING or DISPOSED, and until the fragment view is destroyed, the adapter stays in those states and no action runs. Every action issued stays queued, in order, behind the ones already waiting. |
| `Adapter.ThrowingAppend` | android/src/meez/nativeExtensions/androidyoutube/YoutubePlayerAdapter.java:581-588 | The log of throwing actions is computed piecewise over a concatenation, which is what lets the drain loop log failures one at a time. |
| `Adapter.YouTubePlayerAdapter.constructor` | android/src/meez/nativeExtensions/androidyoutube/YoutubePlayerAdapter.java:90-94 | Starts in INITIALIZING, with an empty queue and no player. |
| `Adapter.YouTubePlayerAdapter.Init` | android/src/meez/nativeExtensions/androidyoutube/YoutubePlayerAdapter.java:138-168 | Follows `InitOutcome`/`AfterInit`. On success the container gets the next view id, the counter advances, and that id is added to the counter's log of issued ids, so `IssuedDistinct` applies to successive containers. On failure the views, frame, container id, counter and log are unchanged. |
| `Adapter.YouTubePlayerAdapter.Dispose` | android/src/meez/nativeExtensions/androidyoutube/YoutubePlayerAdapter.java:171-200 | Follows `AfterDispose`. The timer is stopped. It throws a null dereference exactly when `init` has not run. |
| `Adapter.YouTubePlayerAdapter.Execute` | android/src/meez/nativeExtensions/androidyoutube/YoutubePlayerAdapter.java:205-213 | Follows `AfterExecute` and keeps the object invariant. |
| `Adapter.YouTubePlayerAdapter.ExecuteOutstandingActions` | android/src/meez/nativeExtensions/androidyoutube/YoutubePlayerAdapter.java:575-590 | Outside READY it throws the illegal-state error and runs nothing. In READY it runs the whole queue head first, leaving it empty. The failed log grows by exactly the throwing actions, so later actions run anyway. |
| `Adapter.YouTubePlayerAdapter.OnInitializationSuccess` | android/src/meez/nativeExtensions/androidyoutube/YoutubePlayerAdapter.java:276-298 | Follows `AfterInitSuccess`. In PLAYER_INIT it stores the player, requests chromeless style unless restored, and sends "playerReady" after the drain. Otherwise nothing changes. |
| `Adapter.YouTubePlayerAdapter.OnInitializationFailure` | android/src/meez/nativeExtensions/androidyoutube/YoutubePlayerAdapter.java:267-273 | Always reports the "videoError" event. It is not gated on the state. |
| `Adapter.YouTubePlayerAdapter.OnFragmentViewCreated` | android/src/meez/nativeExtensions/androidyoutube/YoutubePlayerAdapter.java:475-496 | Follows `AfterViewCreated`. When it acts, it parks the view at (-5000, -5000, 600, 400). |
| `Adapter.YouTubePlayerAdapter.OnFragmentViewDestroyed` | android/src/meez/nativeExtensions/androidyoutube/YoutubePlayerAdapter.java:499-503 | Follows `AfterViewDestroyed` and keeps the object invariant. |
| `Adapter.YouTubePlayerAdapter.HandleEvent` | android/src/meez/nativeExtensions/androidyoutube/YoutubePlayerAdapter.java:302-470 | Every player callback does nothing unless READY. In READY it sends the `ReactionTo` message and applies its timer action. |
| `Adapter.YouTubePlayerAdapter.SendTimeData` | android/src/meez/nativeExtensions/androidyoutube/YoutubePlayerAdapter.java:754-765 | Sends whole-second current time and duration only while the player reports that it is playing. |
| `Adapter.YouTubePlayerAdapter.SetVideoFrame` | android/src/meez/nativeExtensions/androidyoutube/YoutubePlayerAdapter.java:530-540 | Applies the frame, whatever the state. |
| `Context.EventState` | android/src/meez/nativeExtensions/androidyoutube/AndroidYoutubeContext.java:539-571 | Playing moves to PLAYING; paused and stopped move to STOPPED; other callbacks keep the state. The result is closed if and only if the old state was closed and the callback was not one of those three. |
| `Context.Route` | android/src/meez/nativeExtensions/androidyoutube/AndroidYoutubeContext.java:357-391 | "play" → play; "playById" → load by id; "stop" and "pause" → pause; "seek" → seek; "dispose" → `DisposeCommand`, which has no effect in `onMessage`; anything outside those six names → ignored. Each is an if-and-only-if. |
| `Context.ClampSeek` | android/src/meez/nativeExtensions/androidyoutube/AndroidYoutubeContext.java:316-321 | With a known duration the target is strictly before the end. A target before the end, or with no duration, is unchanged. A target at or past the end becomes one second before the end, or 0 if the video is shorter than that. |
| `Context.ClampSeekIdempotent` | android/src/meez/nativeExtensions/androidyoutube/AndroidYoutubeContext.java:316-321 | Clamping twice gives the same target as clamping once. |
| `Context.DeferredLoadReplayed` | android/src/meez/nativeExtensions/androidyoutube/AndroidYoutubeContext.java:405-430 | The pending slot end to end. Two `playById` requests (AndroidYoutubeContext.java:273-289) arrive while there is no player and the state is not DISPOSING or DISPOSED. Then a fresh (not restored) player is initialized. The player is stored. The calls made on it are the listener registration, the chromeless style and one load of the later request, with its own video and start time. The earlier request is never loaded, and the slot ends empty with start time 0. |
| `Context.AndroidYoutubeContext.constructor` | android/src/meez/nativeExtensions/androidyoutube/AndroidYoutubeContext.java:92-98 | Starts in INITIALIZING with no player, an empty pending slot and start time 0. |
| `Context.AndroidYoutubeContext.InitVideo` | android/src/meez/nativeExtensions/androidyoutube/AndroidYoutubeContext.java:168-219 | Succeeds if and only if INITIALIZING, building the views under the next view id and adding that id to the counter's log of issued ids. Otherwise it throws the illegal-state error, and the views, frame, container id, counter and log are unchanged. |
| `Context.AndroidYoutubeContext.Dispose` | android/src/meez/nativeExtensions/androidyoutube/AndroidYoutubeContext.java:102-137 | Always ends closed with the timer stopped and no views. It ends DISPOSED if and only if views existed; otherwise it throws a null dereference and stays DISPOSING. |
| `Context.AndroidYoutubeContext.Dispatch` | android/src/meez/nativeExtensions/androidyoutube/AndroidYoutubeContext.java:742-752 | An event reaches ActionScript if and only if the state is not DISPOSING or DISPOSED. |
| `Context.AndroidYoutubeContext.PlayVideoById` | android/src/meez/nativeExtensions/androidyoutube/AndroidYoutubeContext.java:273-289 | With a player, it loads at once and keeps the slot. Without one, it overwrites the slot with (videoId, start) and makes no call. |
| `Context.AndroidYoutubeContext.PlayVideo` | android/src/meez/nativeExtensions/androidyoutube/AndroidYoutubeContext.java:292-297 | Asks the player to play, and does nothing without a player. |
| `Context.AndroidYoutubeContext.PauseVideo` | android/src/meez/nativeExtensions/androidyoutube/AndroidYoutubeContext.java:300-305 | Asks the player to pause, and does nothing without a player. |
| `Context.AndroidYoutubeContext.DoSeek` | android/src/meez/nativeExtensions/androidyoutube/AndroidYoutubeContext.java:308-323 | Does nothing without a player. Otherwise it seeks to `ClampSeek(target, duration)`. |
| `Context.AndroidYoutubeContext.SetVideoFrame` | android/src/meez/nativeExtensions/androidyoutube/AndroidYoutubeContext.java:326-339 | A no-op while the state is DISPOSING or DISPOSED. Otherwise it throws without views, and applies the frame when they exist. |
| `Context.AndroidYoutubeContext.OnMessage` | android/src/meez/nativeExtensions/androidyoutube/AndroidYoutubeContext.java:350-392 | Routes by `Route`, with each command's effect stated. A field the chosen command reads and the JSON lacks makes the call throw with nothing changed. "dispose" and unknown actions change nothing. |
| `Context.AndroidYoutubeContext.OnInitializationSuccess` | android/src/meez/nativeExtensions/androidyoutube/AndroidYoutubeContext.java:405-430 | Ignored while the state is DISPOSING or DISPOSED. Otherwise it stores the player and sends "playerReady". If not restored, the pending video is loaded once and the slot is cleared to (none, 0). If restored, the slot is kept. |
| `Context.AndroidYoutubeContext.OnInitializationFailure` | android/src/meez/nativeExtensions/androidyoutube/AndroidYoutubeContext.java:396-402 | Reports "videoError" through the gate. |
| `Context.AndroidYoutubeContext.OnFragmentViewCreated` | android/src/meez/nativeExtensions/androidyoutube/AndroidYoutubeContext.java:180-197 | Does nothing while the state is DISPOSING or DISPOSED. Otherwise it parks the view offscreen and moves to STOPPED from any other state, or throws if the views are missing. |
| `Context.AndroidYoutubeContext.HandleEvent` | android/src/meez/nativeExtensions/androidyoutube/AndroidYoutubeContext.java:434-571 | The state becomes `EventState`, and the timer follows `ReactionTo`. The callback's message is sent if and only if the new state is not closed. |
| `Context.AndroidYoutubeContext.SendTimeData` | android/src/meez/nativeExtensions/androidyoutube/AndroidYoutubeContext.java:682-699 | Sends whole-second time data if and only if PLAYING. |

## Left out

- View, dialog, layout-parameter and fragment-transaction construction (`createDialog`, `createVideoContainer`, `createLayoutParams`, `createPlayerFragment`, `getRootContainer`, `onFragmentViewStarted`/`onFragmentViewStopped`): Android UI calls with no checkable behaviour. Only whether the views exist (`viewsCreated`) and the last frame applied are kept.
- YouTube SDK calls are not executed. The adapter's actions are opaque. The context's requests are a ghost log, and SDK answers are parameters. The context logs listener registration (`SetListeners`). The adapter logs nothing for it, and keeps only a `chromeless` flag for `setPlayerStyle`.
- `VideoTimer` and its `Handler` scheduling: only whether the timer runs is kept. One tick is one `SendTimeData` call.
- `generateViewId`: the `AtomicInteger` compare-and-set retry loop is not modelled. Calls are sequential, with one counter per class, as each Java class has its own.
- The seconds-to-milliseconds conversion `(int)(1000 * seconds)` from a `double` is left out because it is floating point. Times are taken as integer milliseconds, and so is the `(double)` cast in the context's `sendTimeData`.
- JSON encoding (`sendMessage`, `sendData`, `sendState`, `sendError`) and parsing in `onMessage` are left out because they belong to the org.json library. Messages are a datatype, and a parsed request is a record whose absent fields are `None`.
- The FRE function wrappers (`getFunctions`, the `*Function` classes, including their catch-and-report of code 500) are left out as host-runtime marshalling. So are `hasYouTubeInstalled`, `getApiLevel`, `getUnsupportedReason` and logging.
- `recursiveCallOnView`, `setVideoSaveEnabled`, `onFragmentSaveInstance` and the listener's `onSaveInstance` are left out: they walk Android's View tree.
- Extension.java is not part of this model: it only registers the context. The adapter's `fetchInstance`/`releaseInstance` singleton handling is left out too, because the model works on one adapter object.
- The adapter's `fragment` field is not a field in the model. Whether removing the fragment throws makes no difference to the state, because the call is caught.
- An action that calls `execute` again while the queue drains is not modelled. Actions are opaque and do not re-enter the adapter.
- Adapter.YouTubePlayerAdapter.ExecuteOutstandingActions: an action that throws is modelled as throwing an `Exception`, which the drain loop catches (YoutubePlayerAdapter.java:585). A `java.lang.Error` escapes that catch and ends the drain, leaving the adapter READY with the later actions still queued. In `onInitializationSuccess` it would also skip the "playerReady" message. The model does not capture this, so `Adapter.Inv`, `Adapter.RunKeepsInv` and `Adapter.RunConserves` hold only when no action throws an `Error`.
- Adapter.YouTubePlayerAdapter.OnFragmentViewCreated: requires that `init` has run (the fragment is only added by `init`), so the null dereference it would hit otherwise is not modelled.
- Adapter.YouTubePlayerAdapter.SetVideoFrame: requires that `init` has run, because the layout parameters exist only then; the null dereference otherwise is not modelled.
- Context.AndroidYoutubeContext.HandleEvent: requires a player, because the SDK calls the listeners only after `onInitializationSuccess` registers them.
- Events.ErrorEvent: an `Other` reason carries its SDK enum name as given. The model does not check that this name differs from the reasons the table lists.
