# NautaCloud: the connectivity and alert state machine

NautaCloud watches the phone's link (Wi-Fi or not) and, when the user asks, polls for real internet reachability. When the internet becomes reachable it shows a `cloud_sync` animation and plays the ringtone in a loop. All of this logic lives in four handlers of `MainActivity`:

- the floating button's click listener;
- the subscriber of the link stream;
- the subscriber of the reachability stream;
- `onDestroy`.

They share a little mutable state:

- the probe subscription handle `internetDisposable`;
- the link subscription `networkDisposable`;
- the captured `snackbar` banner;
- the button's visibility and icon;
- the current animation;
- the media player.

This project models that state machine in Dafny, in four modules.

- `Rx` (`rx.dfy`): the RxJava `Disposable` handle as a class with a `disposed` field. `Dispose` is idempotent.
- `Connectivity` (`connectivity.dfy`): the state as a value, `State`, with one step function per handler (`FabClick`, `LinkChange`, `InternetChange`, `Destroy`) and per helper (`SetAnimation`, `DisposeProbe`, `StopRingtone`, `PlayRingtone`, `ObserveInternet`).
  - Every probe subscription ever created is kept, oldest first, as its disposed flag in `probes`.
  - The only assignment to `internetDisposable` stores a freshly created subscription. So the handle is null exactly when no probe was ever created, and otherwise it holds the newest one.
  - `starts` and `stops` count the calls made to the player's `start()` and `stop()`.
  - `playerError` records a call to `prepareAsync()` on a player that is already started, which throws.
  - `link` records the most recent link event. The activity does not store it; it is there so that properties can be stated.
  - `Event`, `Run` and `Admissible` describe sequences of events handled one at a time. `Delivered` states when the platform delivers an event:
    - a stream delivers nothing once its handle is disposed;
    - a click reaches the listener only while the button is visible and the activity exists;
    - teardown happens once per activity.
- `ConnectivityLemmas` (`connectivity_lemmas.dfy`): what each handler guarantees, and two invariants over whole event sequences.
  - No overlap: at most one live probe subscription, for any sequence of events.
  - No ringing without Wi-Fi, and no ringing without a live probe, for any sequence the platform can deliver.
- `NautaCloud` (`main_activity.dfy`): the class `MainActivity`, with the same fields, one method per handler and one per helper.
  - Probe subscriptions are real `Disposable` objects, recorded in a ghost history `probes`.
  - `Valid()` says four things: the link subscription exists, the probes are distinct objects, the link subscription is none of them, and the handle holds the newest probe.
  - Every handler and the helpers `SetAnimation`, `DisposeProbe`, `StopRingtone`, `PlayRingtone` and `ObserveInternetConnectivity` are proved to change the state exactly as their step function says, through `Model()`. The other helpers (`SetFabIcon`, `SetFabVisible`, `ShowNewBanner`, `DismissBanner`, `ReleaseResources`) are proved to change `Model()` by the one field update they make.
  - Every handler also keeps the link subscription object and the history `probes`. The handle keeps its object, or (on a click) gets a fresh one, which is appended to the history.
  - So the handlers can be called one after another. `Replay` feeds any event sequence to a new activity. It ends in the state `Run` gives, and the two invariants hold of the object: every probe subscription it created, except the newest, is disposed.

Where the code differs from a tidy four-state picture (blocked, idle, probing, synced), the model follows the code:

- A Wi-Fi link event shows `cloud_help` whether or not a probe is live. It leaves the probe and the ringtone alone, so an alert can keep ringing under `cloud_help` (`WifiWhileRingingShowsHelp`).
- The click handler has no guard for the blocked screen. Only the hidden button keeps a click from starting a probe without Wi-Fi (`BlockedClickOnlyPreventedByHiddenButton`).
- `playRingtone` has no guard, unlike `stopRingtone`. On a repeated `true` outcome it calls `prepareAsync()` on the started player, which throws `IllegalStateException` before `start()` is reached. The model records this as `playerError` and counts no second `start()` (`RepeatedOutcomes`).
- Teardown releases the player rather than stopping it. `Destroy` silences the alert without counting a `stop()` call.

## Model

| member | source | states |
|---|---|---|
| `Rx.Disposable.constructor` | app/src/main/java/cu/nautacloud/MainActivity.kt:121-130 | a new subscription starts out live |
| `Rx.Disposable.Dispose` | app/src/main/java/cu/nautacloud/MainActivity.kt:81-82 | disposing leaves the handle disposed; disposing an already-disposed handle changes nothing |
| `Connectivity.LiveCount` | app/src/main/java/cu/nautacloud/MainActivity.kt:27 | the number of running probe subscriptions is at most the number created, and is zero exactly when every one is disposed |
| `NautaCloud.MainActivity.constructor` | app/src/main/java/cu/nautacloud/MainActivity.kt:48-54 | after `onCreate` the link subscription is a fresh live object, no probe exists, no banner is stored, nothing rings; animation, icon and visibility are those of the layout |
| `NautaCloud.MainActivity.SetAnimation` | app/src/main/java/cu/nautacloud/MainActivity.kt:141-146 | the current animation becomes the given name; nothing else changes |
| `NautaCloud.MainActivity.StopRingtone` | app/src/main/java/cu/nautacloud/MainActivity.kt:153-155 | follows `Connectivity.StopRingtone`: stops and counts one `stop()` only when playing |
| `NautaCloud.MainActivity.PlayRingtone` | app/src/main/java/cu/nautacloud/MainActivity.kt:148-151 | follows `Connectivity.PlayRingtone`: a stopped player starts, with one more `start()` call; on a playing player, `prepareAsync()` throws first and the failure is recorded |
| `NautaCloud.MainActivity.SetFabIcon` | app/src/main/java/cu/nautacloud/MainActivity.kt:58-63 | the button's icon becomes the given drawable; nothing else changes |
| `NautaCloud.MainActivity.SetFabVisible` | app/src/main/java/cu/nautacloud/MainActivity.kt:98-101 | the button's visibility becomes the given one; nothing else changes |
| `NautaCloud.MainActivity.ShowNewBanner` | app/src/main/java/cu/nautacloud/MainActivity.kt:102-107 | a new shown banner is stored in `snackbar`, replacing the reference to any earlier one |
| `NautaCloud.MainActivity.DismissBanner` | app/src/main/java/cu/nautacloud/MainActivity.kt:97 | the stored banner, if any, is dismissed; with none stored nothing changes |
| `NautaCloud.MainActivity.ReleaseResources` | app/src/main/java/cu/nautacloud/MainActivity.kt:83-84 | releasing the player ends playback without a `stop()` call and marks the activity destroyed |
| `NautaCloud.MainActivity.DisposeProbe` | app/src/main/java/cu/nautacloud/MainActivity.kt:66 | follows `Connectivity.DisposeProbe`: the subscription the handle holds is disposed; every other subscription object keeps its state (they are distinct objects) |
| `NautaCloud.MainActivity.ObserveInternetConnectivity` | app/src/main/java/cu/nautacloud/MainActivity.kt:120-139 | a fresh live subscription object is appended to the history and becomes the handle, overwriting the old reference |
| `NautaCloud.MainActivity.OnFabClick` | app/src/main/java/cu/nautacloud/MainActivity.kt:55-75 | the click listener changes the state exactly as `Connectivity.FabClick`. The null-or-disposed test on the handle is `ProbeLive` on the model. The link subscription stays the same object, and either the handle and the probe history are unchanged, or the handle gets a fresh subscription that is appended to the history, so the replaced one stays in it, disposed |
| `NautaCloud.MainActivity.OnNetworkConnectivity` | app/src/main/java/cu/nautacloud/MainActivity.kt:94-116 | the link subscriber changes the state exactly as `Connectivity.LinkChange`; both subscription references and the probe history stay the same objects |
| `NautaCloud.MainActivity.OnInternetConnectivity` | app/src/main/java/cu/nautacloud/MainActivity.kt:130-137 | the reachability subscriber changes the state exactly as `Connectivity.InternetChange`; both subscription references and the probe history stay the same objects |
| `NautaCloud.MainActivity.OnDestroy` | app/src/main/java/cu/nautacloud/MainActivity.kt:79-86 | teardown changes the state exactly as `Connectivity.Destroy`; both subscription references and the probe history stay the same objects (now disposed) |
| `ConnectivityLemmas.DisposeProbeIdempotent` | app/src/main/java/cu/nautacloud/MainActivity.kt:81-82 | after `internetDisposable?.dispose()` no probe is live and no other subscription changed; disposing twice, or a null or disposed handle, changes nothing |
| `ConnectivityLemmas.StopRingtoneIdempotent` | app/src/main/java/cu/nautacloud/MainActivity.kt:153-155 | `stopRingtone` calls `stop()` exactly when playing; on a stopped player it is a no-op, so it is idempotent |
| `ConnectivityLemmas.FabClickStartsProbe` | app/src/main/java/cu/nautacloud/MainActivity.kt:56-63 | a click with the handle null or disposed creates exactly one new live subscription and sets the `cloud_search` icon; animation and ringtone are untouched |
| `ConnectivityLemmas.FabClickStopsProbe` | app/src/main/java/cu/nautacloud/MainActivity.kt:64-73 | a click with a live handle disposes it, stops the ringtone (one `stop()` if it rang), sets `cloud_help` and the `cloud_search_outline` icon, and creates nothing |
| `ConnectivityLemmas.FabClickTwice` | app/src/main/java/cu/nautacloud/MainActivity.kt:55-75 | two clicks from idle create exactly one subscription and leave it disposed, with no `stop()` call |
| `ConnectivityLemmas.BlockedClickOnlyPreventedByHiddenButton` | app/src/main/java/cu/nautacloud/MainActivity.kt:55-57 | on the blocked screen the click is not delivered (button hidden), yet the handler itself would start a probe without Wi-Fi |
| `ConnectivityLemmas.LinkLossBlocks` | app/src/main/java/cu/nautacloud/MainActivity.kt:99-115 | a non-Wi-Fi event ends with `cloud_error`, the button hidden, a new shown banner stored, the probe disposed and none created, no ringing (one `stop()` exactly if it rang), the `cloud_search_outline` icon |
| `ConnectivityLemmas.WifiUnblocks` | app/src/main/java/cu/nautacloud/MainActivity.kt:95-98 | a Wi-Fi event sets `cloud_help`, dismisses the stored banner and shows the button; the probes, the ringtone and the icon are unchanged |
| `ConnectivityLemmas.WifiWhileRingingShowsHelp` | app/src/main/java/cu/nautacloud/MainActivity.kt:95-98 | a Wi-Fi event while the alert rings leaves the probe live and the alert ringing, under `cloud_help` rather than `cloud_sync` |
| `ConnectivityLemmas.InternetOutcome` | app/src/main/java/cu/nautacloud/MainActivity.kt:130-151 | outcome `true` sets `cloud_sync` and leaves the ringtone playing. It counts one `start()` if it was stopped; if it was playing, `prepareAsync()` fails instead. Outcome `false` sets `cloud_search` and leaves it stopped. Neither touches the subscriptions |
| `ConnectivityLemmas.RepeatedOutcomes` | app/src/main/java/cu/nautacloud/MainActivity.kt:130-155 | repeated `false` outcomes call `stop()` at most once. Repeated `true` outcomes call `start()` at most once, because the unguarded `prepareAsync()` throws on the started player, and that failure is recorded |
| `ConnectivityLemmas.NothingAfterTeardown` | app/src/main/java/cu/nautacloud/MainActivity.kt:79-86 | in any reachable state after `onDestroy` no event is delivered: both subscriptions are disposed, no click reaches the destroyed activity, and teardown is not repeated |
| `ConnectivityLemmas.DestroyDisposesAll` | app/src/main/java/cu/nautacloud/MainActivity.kt:79-86 | `onDestroy` leaves both subscriptions disposed and the player silent; a second `Destroy` step changes nothing in the modelled state, which leaves out the Wi-Fi lock; `Delivered` admits teardown only once |
| `ConnectivityLemmas.DisposeKeepsNoOverlap` | app/src/main/java/cu/nautacloud/MainActivity.kt:66 | disposing the handle's subscription keeps all earlier subscriptions disposed |
| `ConnectivityLemmas.FabClickKeepsNoOverlap` | app/src/main/java/cu/nautacloud/MainActivity.kt:56-57 | a click creates a subscription only when the newest one is null or disposed, so every subscription but the newest stays disposed |
| `ConnectivityLemmas.LinkChangeKeepsNoOverlap` | app/src/main/java/cu/nautacloud/MainActivity.kt:94-116 | a link event creates no subscription and at most disposes the newest, so no overlap is kept |
| `ConnectivityLemmas.ApplyKeepsNoOverlap` | app/src/main/java/cu/nautacloud/MainActivity.kt:56-57 | every event keeps all subscriptions but the newest disposed, because a new one is created only when the handle is null or disposed |
| `ConnectivityLemmas.RunKeepsNoOverlap` | app/src/main/java/cu/nautacloud/MainActivity.kt:121 | the no-overlap invariant holds after any sequence of events |
| `ConnectivityLemmas.NoOverlapAtMostOne` | app/src/main/java/cu/nautacloud/MainActivity.kt:27 | under no overlap at most one subscription is live, and one is live exactly when the handle's is |
| `ConnectivityLemmas.AtMostOneLiveProbe` | app/src/main/java/cu/nautacloud/MainActivity.kt:56-57 | from `onCreate`, after any sequence of events, at most one probe subscription is live |
| `ConnectivityLemmas.ApplyKeepsSafe` | app/src/main/java/cu/nautacloud/MainActivity.kt:94-137 | every delivered event keeps the invariant: ringing only with a live probe; while the link is not Wi-Fi the screen is blocked and nothing probes; after teardown nothing runs |
| `ConnectivityLemmas.RunKeepsSafe` | app/src/main/java/cu/nautacloud/MainActivity.kt:94-137 | that invariant holds after any sequence of delivered events |
| `ConnectivityLemmas.NoRingingWithoutWifi` | app/src/main/java/cu/nautacloud/MainActivity.kt:99-109 | from `onCreate`, after any deliverable sequence, the ringtone plays only while a probe is live, and never while the link is not Wi-Fi |
| `ConnectivityLemmas.RunAppend` | app/src/main/java/cu/nautacloud/MainActivity.kt:55-137 | handling one more event after a sequence is one more step of the sequential run |
| `NautaCloud.ClickRestartsProbe` | app/src/main/java/cu/nautacloud/MainActivity.kt:55-63 | a click while the handle's subscription is disposed stores a fresh, live subscription; the replaced one stays disposed and stays in the probe history |
| `NautaCloud.Replay` | app/src/main/java/cu/nautacloud/MainActivity.kt:55-137 | a new activity, fed any event sequence through its handlers, ends in the state `Run` gives. At most one of its probe subscriptions is live: every `Disposable` in its history but the newest is disposed. After a deliverable sequence it keeps the ringing, blocking and teardown invariant |
| `ConnectivityLemmas.ScenarioLinkLossCancelsProbe` | app/src/main/java/cu/nautacloud/MainActivity.kt:55-137 | Wi-Fi, click, reachable, link lost, Wi-Fi again: the probe is created and cancelled once, the ringtone started and stopped once, and no probe restarts |

## Left out

- The Android UI plumbing is reduced to plain fields. This covers view binding, the toolbar, drawable lookup, `Snackbar` construction and `resources.getIdentifier`. The fields are the icon name, a visibility flag, the stored banner and the animation name.
- The initial animation, icon and button visibility come from the layout XML, which is not part of this model. They are parameters of the constructor and of `Connectivity.Initial`.
- Only the banner stored in `snackbar` is modelled. A banner whose reference is overwritten by a later non-Wi-Fi event is not dismissed by this code; its removal from the screen is up to the `Snackbar` library's one-at-a-time queue.
- `MediaPlayer` and the Wi-Fi lock are reduced to a `playing` flag, counts of `start()`/`stop()` calls and the `playerError` flag. This leaves out lazy creation, the asynchronous preparation, looping through the completion listener, wake and Wi-Fi lock acquisition, and the rest of the player's own state machine.
- `NautaCloud.MainActivity.PlayRingtone`: what follows the `IllegalStateException` from `prepareAsync()` on a started player is not modelled. The exception escapes the subscriber lambda, which has no error handler. The model records `playerError` and leaves the rest of the state as it was.
- `ConnectivityLemmas.DestroyDisposesAll`: the idempotence it proves is about the modelled state only. In the source a second `onDestroy` would throw at `wifiLock.release()` (MainActivity.kt:84), because the reference-counted lock is acquired once and would be released twice. Android calls `onDestroy` once per instance, which `Delivered` states, so that path is not modelled.
- `ConnectivityLemmas.RepeatedOutcomes`: `Delivered` lets a probe deliver the same outcome twice in a row. Whether the reachability library suppresses unchanged outcomes is library behaviour, not part of this model.
- `ReactiveNetwork` and the RxJava schedulers are not modelled. This covers `subscribeOn`/`observeOn`, the 30 s polling interval and the 10 s timeout. Events are sequential calls. That no event arrives after its stream is disposed is stated by `Delivered`, not enforced by the handlers.
- The link type is a boolean input. The string comparison `typeName() == "WIFI"` is left out.
- `NautaCloud.MainActivity.OnInternetConnectivity` has no precondition that the probe is live. The handler does not check this. Only the event-sequence lemmas assume it, through `Delivered`.
