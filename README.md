# AudioDemo view-model: observable properties and playback flags

This project models the stateful core of `demo/app/main-view-model.ts` in a
demo app for a native audio-player plugin. The core has two parts.

- **The `ObservableProperty` decorator.** Every decorated key gets a hidden
  slot, initialised from the value the key held when it was decorated. The
  getter returns the slot's value. The setter does nothing when the new value
  is `===` to the stored one. Otherwise it stores the value and then emits one
  `propertyChange` notification that carries the key and the new value.
  The module `ObservableProperty` holds three things:
  - `Value`, the JavaScript values these properties hold, with `===` (`NaN` is
    not equal to itself);
  - `Write`, the setter as a function on slots plus a notification log;
  - the class `ObservableObject`, whose `Get` and `Set` update a slot map and
    a log in place.
  Its class invariant says that a listener replaying every notification from
  the initial slot values holds exactly the stored values.
- **The `AudioDemo` view-model.** It assigns the decorated properties
  `isPlaying`, `currentVolume`, `audioTrackDuration` and `remainingDuration`
  around calls to the player. The player is an outside library, so each of
  its calls appears as an input: a promise that resolves or rejects, the
  duration it reports, whether it says it is playing, and its current
  position. The module `AudioDemoSpec` states what each operation and callback
  does to the properties, the notifications and the duration-tracking
  intervals. It also defines runs of such steps and proves lemmas about them.
  The class `MainViewModel.AudioDemo` performs the same assignments step by
  step, and each of its methods is proved equal to its `AudioDemoSpec`
  function.

Behaviour of the code that the model keeps exactly:

- After a rejected `playFromFile` or `playFromUrl`, `isPlaying` still ends
  `true`. The `.catch` handler sets it `false` and the next line sets it
  `true` again, so `false` and then `true` are both notified.
- A rejected local play still goes on to query the track duration, and it can
  still start tracking.
- A rejected `getAudioTrackDuration` escapes to the outer `catch`. The
  duration is not recorded and no tracking starts.
- The tracking interval is never cleared. Intervals accumulate, one per
  local play that starts tracking, and each keeps recomputing
  `remainingDuration`, including after a pause.
- The complete callback sets `isPlaying = false` only when the awaited
  `dispose()` resolves.
- The decorator runs on the class prototype, so each slot starts out
  `undefined` and is shared by every instance. The constructor therefore
  takes the slots' values at construction time. Its `currentVolume = 1`
  notifies only when the slot does not already hold 1.

What the code does not do, and the model therefore does not do either:

- There are no Loading, Paused, Completed or Error states, and no
  invalid-state error is ever reported.
- Polling is not cancelled on pause, completion or error.
- A failed play leaves `isPlaying` true, not false.
- Volume is never clamped.

Durations and positions are integers (milliseconds).

## Model

| member | source | states |
|---|---|---|
| `ObservableProperty.Write` | demo/app/main-view-model.ts:189-199 | after a write the slot map is the old map with the key set to the new value, and all other keys are unchanged; the log is unchanged when the old value is `===` to the new one, and otherwise gains exactly one event carrying the key and the new value |
| `ObservableProperty.WriteKeepsListenersInSync` | demo/app/main-view-model.ts:193-199 | the notification follows the store and carries the new value, so a listener replaying the log from the initial slot values keeps holding exactly the stored values after every write |
| `ObservableProperty.Writes` | demo/app/main-view-model.ts:189-199 | a sequence of assignments never adds or removes a slot, only appends to the log, and emits at most one notification per assignment |
| `ObservableProperty.ReadAfterWrites` | demo/app/main-view-model.ts:183-188 | after any sequence of assignments the getter returns the value of the last assignment to that key, or the slot's initial value if there was none; assignments to other keys do not affect it |
| `ObservableProperty.RepeatedStoredValueIsNoop` | demo/app/main-view-model.ts:190-192 | assigning the value a slot already holds (not `NaN`) any number of times leaves the slots and the log unchanged |
| `ObservableProperty.RepeatedWritesNotifyAtMostOnce` | demo/app/main-view-model.ts:189-199 | of n ≥ 1 equal assignments of a value other than `NaN` to one key, only the first can notify, and it does exactly when the value differs from the stored one; the slot ends holding the value |
| `ObservableProperty.NaNAlwaysNotifies` | demo/app/main-view-model.ts:190-199 | `NaN` is never `===` to the stored value, so assigning it always notifies, even when the slot already holds `NaN` |
| `ObservableProperty.ObservableObject.constructor` | demo/app/main-view-model.ts:181-185 | each decorated key's slot starts with the value the key held at decoration, and the log is empty |
| `ObservableProperty.ObservableObject.Get` | demo/app/main-view-model.ts:186-188 | the getter returns the stored value |
| `ObservableProperty.ObservableObject.Set` | demo/app/main-view-model.ts:189-200 | the setter updates the slots and log in place exactly as `Write` does, and keeps the invariant that replaying the log reproduces the stored values |
| `AudioDemoSpec.Construct` | demo/app/main-view-model.ts:45-50 | the constructor sets `currentVolume` to 1 and leaves the other properties as their slots held them; it notifies once unless the shared slot already held 1; no interval is running |
| `AudioDemoSpec.StartDurationTracking` | demo/app/main-view-model.ts:171-178 | an interval capturing the duration is started exactly when the player says it is playing; the properties are untouched |
| `AudioDemoSpec.PlayAudio` | demo/app/main-view-model.ts:63-103 | `isPlaying` ends `true` for every file type and every outcome. Only a local file with a resolved duration query records `audioTrackDuration`, and only such a call also starts an interval, when the player reports it is playing. Every other property is unchanged. The notifications are exactly: `true` (unless already `true`); `false` then `true` after a rejected play of a local or remote file; then the duration (unless unchanged) |
| `AudioDemoSpec.PauseAudio` | demo/app/main-view-model.ts:131-139 | `isPlaying` ends `false` when the pause resolves and `true` when it rejects; nothing else changes, the intervals keep running, and at most that one change is notified |
| `AudioDemoSpec.OnComplete` | demo/app/main-view-model.ts:68-73 | when `dispose()` resolves, `isPlaying` ends `false`, nothing else changes, and a notification fires unless it already was `false`; when it rejects, nothing changes |
| `AudioDemoSpec.OnError` | demo/app/main-view-model.ts:74-77 | `isPlaying` ends `false`, nothing else changes, and a notification fires unless it already was `false` |
| `AudioDemoSpec.Tick` | demo/app/main-view-model.ts:173-176 | a firing of an interval sets `remainingDuration` to that interval's captured duration minus the player's position and changes nothing else; the log gains exactly that one change, unless the value is unchanged |
| `AudioDemoSpec.IntervalsAccumulate` | demo/app/main-view-model.ts:171-178 | intervals are never cleared: after any run of steps the intervals are the earlier ones followed by one per local play that started tracking, in order |
| `AudioDemoSpec.RemainingDurationChangesOnlyOnTicks` | demo/app/main-view-model.ts:173-176 | a run with no interval firing leaves `remainingDuration` unchanged |
| `AudioDemoSpec.TrackingOutlivesPause` | demo/app/main-view-model.ts:131-176 | after a successful pause, a firing interval still recomputes `remainingDuration` while `isPlaying` stays `false` |
| `MainViewModel.AudioDemo.constructor` | demo/app/main-view-model.ts:45-50 | the object is built as `AudioDemoSpec.Construct` says |
| `MainViewModel.AudioDemo.PlayAudio` | demo/app/main-view-model.ts:63-103 | the step-by-step assignments produce exactly the state and notifications of `AudioDemoSpec.PlayAudio` |
| `MainViewModel.AudioDemo.PauseAudio` | demo/app/main-view-model.ts:131-139 | the new state is exactly `AudioDemoSpec.PauseAudio` of the old one |
| `MainViewModel.AudioDemo.OnComplete` | demo/app/main-view-model.ts:68-73 | the new state is exactly `AudioDemoSpec.OnComplete` of the old one |
| `MainViewModel.AudioDemo.OnError` | demo/app/main-view-model.ts:74-77 | the new state is exactly `AudioDemoSpec.OnError` of the old one |
| `MainViewModel.AudioDemo.StartDurationTracking` | demo/app/main-view-model.ts:171-178 | the new state is exactly `AudioDemoSpec.StartDurationTracking` of the old one |
| `MainViewModel.AudioDemo.Tick` | demo/app/main-view-model.ts:173-176 | the new state is exactly `AudioDemoSpec.Tick` of the old one |

## Left out

- The player itself (`TNSPlayer`: decoding, `dispose`, `resume`, `play`, `changePlayerSpeed`, `getAudioTrackDuration`, `isAudioPlaying`, `currentTime`): it is a foreign library. Only its outcomes and the numbers it reports enter the model, as parameters.
- `alert`, `dialogs.alert` and `console.log`: UI and logging output with no effect on the modelled state. For the same reason the info callback is left out; it only shows a dialog and logs.
- `OnError`: assumes the player's error payload serialises. `JSON.stringify(errorObject)` runs before `isPlaying = false`, and on a cyclic or BigInt payload it throws, so the callback would end without changing `isPlaying`; the model always sets it `false`.
- The scheduling done by `timer.setInterval` and the interleaving of `await`s with callbacks: each operation, callback and interval firing is one sequential step, run to completion.
- A play call that throws synchronously, rather than returning a rejected promise: the player's behaviour there is not visible.
- The volume slider handler (`value / 100`) and the speed methods `playSpeed1`, `playSpeed15` and `playSpeed2`: floating point, and they only forward to the player.
- `playRemoteFile` and `playLocalFile`: they only call the modelled `playAudio` with a fixed path and file type.
- `platformExtension`, the hard-coded `_audioUrls`, `resumePlayer`, `resumePlaying` and `stopPlaying`: constant strings, or one-line forwards to the player that change no decorated property.
- Listeners: `notify` is modelled as appending an event to the log. Every listener is assumed to return normally and to assign no decorated property. A listener that throws would, for example, send `pauseAudio` into its `catch` after a resolved pause and leave `isPlaying` true, or end `playAudio` at its outer `catch` right after its first assignment. A listener that assigns a decorated property would insert its own events into the log in between.
- The `object` field of a notification is always the view-model that owns the slots, so the model's events leave it out.
- Slot sharing between instances: the model covers one `AudioDemo`. Writes made through another instance after this one is built are not reflected.
- Numbers other than integers and `NaN` (fractions, infinities): durations and positions are integers of milliseconds.
