# LoadApp: the download button and the download lifecycle

LoadApp is a small Android app. The user picks one of three GitHub repositories
with radio buttons and taps a custom `LoadingButton`. The app then downloads the
repository archive through the system download manager. When the completion
broadcast arrives, the button shows that the download is done and a notification
reports success or failure.

This project models the two state machines of the app:

- `LoadingButton` (module `ButtonSpec` for the specification, module `Button`
  for the class). It has three states: `Idle`, `Loading` and `Completed`.
  Assigning a state runs that state's entry action. The action rewrites the
  text and the background colour, starts or cancels the progress animator,
  resets progress, and enables or disables the view. `onDraw` paints the
  background and the text in every state, and paints the progress overlay and
  arc only in `Loading`.
- `MainActivity` (module `ActivitySpec` for the specification, module
  `Activity` for the class). It handles the click on the button, which is
  guarded on a repository having been selected. It handles the radio group,
  which sets the URL and the file name together. It handles the completion
  broadcast, which is filtered by download id and action; a queried status
  becomes a "success" or "failed" notification.

Each class keeps the source's fields and updates them in place. Each method is
proved to change the class's value exactly as a function of the specification
module says (`View() == Assign(s, old(View()))`,
`Model() == Click(old(Model()), id)`), and to keep the class invariant. The
lemmas of the specification modules state what those functions promise. They
cover each handler, and every sequence of events from `onCreate`.

Abstractions:

- String and colour resources are tokens (`Label`, `FileName`, `StatusText`,
  `ColourRes`).
- The background colour field keeps a distinction the source has. The
  initialiser stores a colour resolved from `colorPrimary`. `setBgColor` is
  handed the bare resource ids `R.color.blue` and `R.color.colorPrimary`, and
  stores them unresolved (`Colour.Resolved` versus `Colour.ResourceId`).
- The value animator is a `running` flag. Its updates are events that carry a
  value in [0,1]; a cancelled animator delivers none.
- The download manager is a parameter. `enqueue` returns an id given to the
  handler. The query yields an optional status row.
- Toasts, button assignments, enqueued requests and notifications are logged,
  in order, in a ghost sequence of `Effect`s.
- `invalidate()` and `requestLayout()` calls made by the button's own code are
  counted.
- Widths and angles are reals.
- `enableButton` and `disableButton` set the flag on
  `findViewById(R.id.loading_button)`. A view's `findViewById` returns the
  view itself when the id matches its own. The button is declared in the
  layout with that id (MainActivity.kt:46 finds it by it), so the model sets
  the button's own flag. With any other id the lookup would return null and
  the app would crash. The model assumes the layout's id.

## Model

The class rows state their effect through the specification functions:
`Assign`, `Tick` and `Render` for the button, and `Click`, `RadioClicked`,
`Receive` and `ShowNotification` for the activity. Each of those functions
carries the behaviour its row describes. The lemma rows state what the
functions promise.

| member | source | states |
|---|---|---|
| `ButtonSpec.Created` | app/src/main/java/com/example/loadapp/LoadingButton.kt:24-87 | The field initialisers give state `Idle`, progress 0 and a stopped animator. The `init` block takes the text from the layout attribute and the resolved `colorPrimary` background. So a new button is `Idle` and shows the layout's text. Its progress is 0, it is enabled and its animator is stopped, so the button invariant holds from the start. |
| `ButtonSpec.AssignLoading` | app/src/main/java/com/example/loadapp/LoadingButton.kt:45-59 | Entering `Loading` does four things: the "we are loading" text, the blue background, a started animator and a disabled button. Progress is untouched. Three redraws and two layout passes are requested. |
| `ButtonSpec.AssignCompleted` | app/src/main/java/com/example/loadapp/LoadingButton.kt:65-71 | Entering `Completed` sets the "downloaded" text and the `colorPrimary` background, cancels the animator, resets progress to 0 and enables the button. |
| `ButtonSpec.AssignIdle` | app/src/main/java/com/example/loadapp/LoadingButton.kt:61-63 | Entering `Idle` changes only the text, to "download". Background, progress, animator and enabled flag are left as they were. |
| `ButtonSpec.ReassignSameState` | app/src/main/java/com/example/loadapp/LoadingButton.kt:32-43 | Assigning the current state again runs its entry action again. The visible result is unchanged. The requests are repeated: three more redraws and two more layout passes for `Loading` and `Completed`, two and one for `Idle`. |
| `ButtonSpec.AssignKeepsInvariant` | app/src/main/java/com/example/loadapp/LoadingButton.kt:32-71 | Every state assignment keeps three facts: progress in [0,1], disabled exactly while the animator runs, progress 0 while it is stopped. |
| `ButtonSpec.TickKeepsInvariant` | app/src/main/java/com/example/loadapp/LoadingButton.kt:48-52 | An animator update with a value in [0,1] keeps the button invariant. |
| `ButtonSpec.IdleAfterLoadingStaysDisabled` | app/src/main/java/com/example/loadapp/LoadingButton.kt:45-63 | Entering `Idle` right after `Loading` shows "download", yet the button stays disabled and the animator keeps running. |
| `ButtonSpec.CompletedBackgroundIsResourceId` | app/src/main/java/com/example/loadapp/LoadingButton.kt:65-67 | After construction the background field holds the resolved primary colour. After `Completed` it holds the unresolved resource id of that colour, so the two values differ. |
| `ButtonSpec.OverlayWidth` | app/src/main/java/com/example/loadapp/LoadingButton.kt:162 | For progress in [0,1], the overlay width `progress * measuredWidth` lies between 0 and the view width. It is 0 at progress 0 and the full width at progress 1. |
| `ButtonSpec.ArcSweep` | app/src/main/java/com/example/loadapp/LoadingButton.kt:176 | For progress in [0,1], the arc sweep `progress * 360` lies in [0, 360]. It is 0 at progress 0 and 360 at progress 1. |
| `ButtonSpec.ProgressDrawingMonotone` | app/src/main/java/com/example/loadapp/LoadingButton.kt:162-176 | More progress never draws a narrower overlay or a shorter arc. |
| `ButtonSpec.RenderLayers` | app/src/main/java/com/example/loadapp/LoadingButton.kt:108-187 | Every state paints the background first and the text last. A progress layer is painted if and only if the state is `Loading`. There it is the overlay, no wider than the view, and an arc of 0 to 360 degrees. |
| `ButtonSpec.ReplayKeepsInvariant` | app/src/main/java/com/example/loadapp/LoadingButton.kt:28-71 | After any sequence of state assignments and animator updates, progress stays in [0,1] and the button is disabled exactly while the animator runs. |
| `ButtonSpec.ReplayFromCreated` | app/src/main/java/com/example/loadapp/LoadingButton.kt:32-71 | After any sequence of events, state and text are those of the last assignment (the layout text before any). Background, enabled flag and animator are those set by the last assignment other than `Idle`. |
| `Button.LoadingButton.constructor` | app/src/main/java/com/example/loadapp/LoadingButton.kt:73-87 | The new object's fields equal `Created(layoutText)` and satisfy `Valid()`. |
| `Button.LoadingButton.SetLoadingButtonState` | app/src/main/java/com/example/loadapp/LoadingButton.kt:210-212 | The new view is `Assign(state, old view)`. The entry action of the new state always runs, even when the state is unchanged, then a redraw is requested. `Valid()` is kept. |
| `Button.LoadingButton.SetupLoadingState` | app/src/main/java/com/example/loadapp/LoadingButton.kt:45-59 | The fields change as `setupLoadingState` changes them, and no other field moves. |
| `Button.LoadingButton.SetupIdleState` | app/src/main/java/com/example/loadapp/LoadingButton.kt:61-63 | Only the text and the request counters change. |
| `Button.LoadingButton.SetupCompletedState` | app/src/main/java/com/example/loadapp/LoadingButton.kt:65-71 | The fields change as `setupCompletedState` changes them, and no other field moves. |
| `Button.LoadingButton.SetText` | app/src/main/java/com/example/loadapp/LoadingButton.kt:214-218 | The text is replaced and one redraw and one layout pass are requested. Nothing else changes. |
| `Button.LoadingButton.SetBgColor` | app/src/main/java/com/example/loadapp/LoadingButton.kt:220-224 | The background field is replaced and one redraw and one layout pass are requested. Nothing else changes. |
| `Button.LoadingButton.ResetProgress` | app/src/main/java/com/example/loadapp/LoadingButton.kt:226-228 | Progress becomes 0 and nothing else changes. |
| `Button.LoadingButton.EnableButton` | app/src/main/java/com/example/loadapp/LoadingButton.kt:206-208 | The view becomes enabled and nothing else changes. |
| `Button.LoadingButton.DisableButton` | app/src/main/java/com/example/loadapp/LoadingButton.kt:202-204 | The view becomes disabled and nothing else changes. |
| `Button.LoadingButton.OnAnimationUpdate` | app/src/main/java/com/example/loadapp/LoadingButton.kt:49-52 | Progress takes the animated value and a redraw is requested. Nothing else changes and `Valid()` is kept. |
| `Button.LoadingButton.OnDraw` | app/src/main/java/com/example/loadapp/LoadingButton.kt:108-187 | The paint calls are exactly `Render` of the current view. `RenderLayers` states what that sequence holds. |
| `ActivitySpec.StatusTextOf` | app/src/main/java/com/example/loadapp/MainActivity.kt:88-102 | The status string is "success" if and only if the status is `STATUS_SUCCESSFUL` (8), and "failed" for every other status. |
| `ActivitySpec.ClickWithoutSelection` | app/src/main/java/com/example/loadapp/MainActivity.kt:48-53 | A click with no repository selected moves the button to `Completed` and logs exactly one "no repository selected" toast. Nothing is enqueued, and `downloadID` and the selection are unchanged. |
| `ActivitySpec.ClickWithSelection` | app/src/main/java/com/example/loadapp/MainActivity.kt:105-121 | With a repository selected, the button is moved to `Loading` before the selected URL is enqueued to `/repos/repository.zip`. `downloadID` becomes the id `enqueue` returned. |
| `ActivitySpec.RadioClickedSelects` | app/src/main/java/com/example/loadapp/MainActivity.kt:131-154 | Each of the three radio ids sets its fixed URL and file name together. A view that is not a radio button, or an unknown id, changes nothing. |
| `ActivitySpec.ReceiveIgnoresForeign` | app/src/main/java/com/example/loadapp/MainActivity.kt:67-72 | A broadcast whose id (-1 if absent) differs from `downloadID`, or whose action is not download-complete, changes nothing and sends nothing. |
| `ActivitySpec.ReceiveWithoutRow` | app/src/main/java/com/example/loadapp/MainActivity.kt:83-84 | When the query yields no row, nothing changes: the button keeps its state and no notification is sent. |
| `ActivitySpec.ReceiveHandled` | app/src/main/java/com/example/loadapp/MainActivity.kt:86-102 | A handled row always ends with the button in `Completed`. Exactly one notification follows, with the selected file name and "success" if and only if the status is `STATUS_SUCCESSFUL`. |
| `ActivitySpec.TapWhileLoadingIsDropped` | app/src/main/java/com/example/loadapp/MainActivity.kt:48-54 | In any reachable activity, a tap while the button is `Loading` reaches no handler, because the button is disabled. The animator is never replaced and nothing is enqueued twice. |
| `ActivitySpec.NotificationAfterDownloadNamesFile` | app/src/main/java/com/example/loadapp/MainActivity.kt:88-102 | Once a download has been enqueued, a handled broadcast's notification carries a file name and never the text "null". |
| `ActivitySpec.BroadcastBeforeAnyDownload` | app/src/main/java/com/example/loadapp/MainActivity.kt:67-74 | `downloadID` starts at 0. A completion broadcast for id 0 before any download is therefore handled, and its notification carries the text "null". |
| `ActivitySpec.LastEnqueuedIdAppend` | app/src/main/java/com/example/loadapp/MainActivity.kt:121 | The most recent enqueue id moves only when an enqueue is logged. |
| `ActivitySpec.ClickKeepsInvariant` | app/src/main/java/com/example/loadapp/MainActivity.kt:48-54 | The click listener keeps the activity invariant. |
| `ActivitySpec.RadioClickedKeepsInvariant` | app/src/main/java/com/example/loadapp/MainActivity.kt:131-154 | Radio selection keeps the activity invariant. The URL and the file name are assigned only together. |
| `ActivitySpec.ReceiveKeepsInvariant` | app/src/main/java/com/example/loadapp/MainActivity.kt:65-103 | The broadcast receiver keeps the activity invariant. |
| `ActivitySpec.OnCreateEstablishesInvariant` | app/src/main/java/com/example/loadapp/MainActivity.kt:24-47 | After `onCreate` the activity invariant holds. The URL and the file name are both null and `downloadID` is 0. The button is `Idle` and enabled. |
| `ActivitySpec.StepKeepsInvariant` | app/src/main/java/com/example/loadapp/MainActivity.kt:36-154 | Every event keeps the activity invariant: a delivered tap, a radio click, a broadcast or an animator update. |
| `ActivitySpec.ReachableInvariant` | app/src/main/java/com/example/loadapp/MainActivity.kt:24-154 | After any sequence of events from `onCreate`: the URL is null exactly when the file name is, or both name the same repository. `downloadID` is the id of the latest enqueue (0 before any). Nothing is enqueued while nothing is selected. The button is disabled exactly while `Loading`. Every enqueue follows a move to `Loading` and every notification follows a move to `Completed`. |
| `Activity.MainActivity.constructor` | app/src/main/java/com/example/loadapp/MainActivity.kt:36-47 | The new activity equals `OnCreate(layoutText)` and satisfies `Valid()`. |
| `Activity.MainActivity.SetupViews` | app/src/main/java/com/example/loadapp/MainActivity.kt:45-47 | The button is assigned `Idle` and the assignment is logged. |
| `Activity.MainActivity.SetButtonState` | app/src/main/java/com/example/loadapp/MainActivity.kt:50 | The button's view becomes `Assign(s, old view)`, one `ButtonSet(s)` effect is logged, and no field of the activity changes. |
| `Activity.MainActivity.OnLoadingButtonClick` | app/src/main/java/com/example/loadapp/MainActivity.kt:48-55 | The activity changes exactly as `Click` says, and `Valid()` is kept. |
| `Activity.MainActivity.ShowToast` | app/src/main/java/com/example/loadapp/MainActivity.kt:156-159 | One toast is logged and nothing else changes. |
| `Activity.MainActivity.Download` | app/src/main/java/com/example/loadapp/MainActivity.kt:105-122 | The button is moved to `Loading`, then the selected URL is enqueued. `downloadID` is the returned id. |
| `Activity.MainActivity.OnRadioButtonClicked` | app/src/main/java/com/example/loadapp/MainActivity.kt:131-138 | The activity changes exactly as `RadioClicked` says, and `Valid()` is kept. |
| `Activity.MainActivity.SetupGlide` | app/src/main/java/com/example/loadapp/MainActivity.kt:140-143 | URL and file name are set to the Glide pair; nothing else changes. |
| `Activity.MainActivity.SetupLoadApp` | app/src/main/java/com/example/loadapp/MainActivity.kt:145-149 | URL and file name are set to the LoadApp pair; nothing else changes. |
| `Activity.MainActivity.SetupRetrofit` | app/src/main/java/com/example/loadapp/MainActivity.kt:151-154 | URL and file name are set to the Retrofit pair; nothing else changes. |
| `Activity.MainActivity.OnReceive` | app/src/main/java/com/example/loadapp/MainActivity.kt:65-76 | The activity changes exactly as `Receive` says: the two guards first, then `showNotification`. `Valid()` is kept. |
| `Activity.MainActivity.ShowNotification` | app/src/main/java/com/example/loadapp/MainActivity.kt:78-103 | An empty row changes nothing. Otherwise the button is moved to `Completed` and one notification with the matching status string is logged. |
| `Activity.MainActivity.SendNotification` | app/src/main/java/com/example/loadapp/MainActivity.kt:174-183 | One notification `(file name, status)` is logged and nothing else changes. |

## Left out

- Canvas rendering is not modelled: `drawRoundRect`, `drawArc`, `drawText`, `getTextBounds`, the paints and their colours, and the arc's rectangle computed from padding and corner radius. The model keeps only which layers are painted, in which order, with the overlay width and the arc sweep.
- `onMeasure` and `resolveSizeAndState` are left out. They are the toolkit's layout negotiation, so `OnDraw` takes the measured size as parameters.
- `ValueAnimator` timing is left out: the 3000 ms duration, `REVERSE` mode and infinite repeat. Updates are events with a value in [0,1], delivered only while the animator runs.
- Re-entering `Loading` replaces the animator without cancelling the old one. The model does not capture that the old animator keeps delivering updates, which is callback behaviour of the toolkit. `ActivitySpec.TapWhileLoadingIsDropped` shows the activity never re-enters `Loading` while loading.
- The first update that `ValueAnimator.start()` may deliver at once is not part of the entry action. It is one more update event.
- `Button.LoadingButton.OnAnimationUpdate`: requires a running animator and a value in [0,1]. Only a running `ofFloat(0f, 1f)` animator calls its listener, and these requires say so.
- `DownloadManager.enqueue`, `query` and `Cursor` access are operating-system I/O. The returned id and the status of the first row are parameters. The query is for the intent's id, with 0 if the extra is absent; the model takes its answer as given. `cursor.moveToFirst()` failing and `cursor.count <= 0` are both the empty row.
- The request's title, description, charging and metered/roaming flags are left out. The logged enqueue keeps the URL, the destination and the returned id.
- `createDirectory` (`mkdirs`), `registerReceiver` and `createChannel`/`setupChannel` are operating-system calls with no decision the app depends on.
- NotificationSender.kt is reduced to logging `(file name, status)`. The notification builder, the pending intent to the detail screen and the fixed notification id 0 are toolkit plumbing; that fixed id means a newer notification replaces an older one.
- DetailActivity.kt is not part of this model. It copies two intent extras into text views and starts an activity.
- `downloadID` is a 64-bit `Long` in the source and an unbounded `int` here. No arithmetic is done on it, so the width does not matter.
- Localised string values are not modelled. Resource strings are tokens, and `null.toString()` is the token `NullText`.
- Float arithmetic is done with reals. Rounding in `progress * measuredWidth` and `progress * 360f` is not modelled.
