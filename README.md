# Advert plugin: a Dafny model of its ad rotation

The `Advert` plugin for a game-server host broadcasts configured advertisement lines into
chat. On load it takes a configuration (`MainConfigModel`: a chat prefix, an interval in
seconds and a list of ads), cancels any running timer and, unless the ad list is empty,
registers a repeating timer with the host scheduler. Each firing of that timer
(`ShowNextAd`) formats the ad at the current rotation index as `prefix + " " + ad` (or the
ad alone when the prefix is empty), hands it to the host's chat broadcast, and advances
the index modulo the list length. `Unload` cancels the timer and drops its handle.

The model has two layers.

- `AdvertState` (state.dfy) describes the plugin as a value `Plugin`: its configuration,
  its rotation index, its timer handle, the host scheduler's registry of timers (a
  sequence of "cancelled" flags, one per timer ever registered; a handle is a position in
  it) and the log `sent` of chat lines broadcast so far. Every operation is a function
  from the state before to the state after, with contracts for what the source promises.
- `AdvertPlugin.Advert` (plugin.dfy) is the plugin object itself: a class with the same
  fields, updated in place, whose methods are proved to take `Model()` exactly where the
  corresponding `AdvertState` function says.

The lemmas are in `AdvertRotation` (rotation.dfy: k ticks, full cycles, periodicity),
`AdvertTimers` (timers.dfy: at most one live timer, Unload idempotent) and
`AdvertLifecycle` (lifecycle.dfy: whole runs of host events, the stale-index defect).
`MessageFormat` (format.dfy) is the formatter and its inverse, `AdvertConfig`
(config.dfy) the configuration record and its defaults.

Three details of the code shape the model:

- `m_current_ad_index` is set once, where the field is declared (src/Advert.cs:42), and
  `Load` (lines 47-68) never resets it. `AdvertState.Load` keeps the index; see
  "## Findings".
- After `StartAdvertTimer` on an empty ad list, the cancelled handle stays in the field
  (lines 78-83); only `Unload` sets it to null (line 72). The model keeps that handle;
  Idle here means that no timer is live (`AdvertState.Running` is false), not that the
  handle is null.
- A tick with an index past the end of the list makes `Ads[index]` throw
  ArgumentOutOfRangeException before anything has changed. The model returns
  `AdvertState.OutOfRange` and keeps the state.

## Model

| member | source | states |
|---|---|---|
| AdvertConfig.DefaultConfig | src/Advert.cs:17-25 | the default configuration has prefix "[blue][Server][default]", interval 60 and exactly three ads |
| MessageFormat.FormatMessage | src/Advert.cs:99-102 | with an empty prefix the line is the message itself; otherwise it is the prefix, then one space, then the message, and nothing else (length fixed) |
| MessageFormat.RecoverMessage | src/Advert.cs:100 | the inverse reading of a line: any message it recovers formats back to that exact line |
| MessageFormat.RecoverFormatted | src/Advert.cs:100 | round trip: the message is recovered from every formatted line, under every prefix |
| MessageFormat.FormatInjective | src/Advert.cs:100 | under one prefix, two messages that give the same line are equal |
| MessageFormat.FormatExamples | src/Advert.cs:100 | "" and "hello" give "hello"; "[P]" and "hello" give "[P] hello" |
| AdvertState.Initial | src/Advert.cs:39-42 | a new plugin has the default configuration, index 0, no timer, is Idle and satisfies both invariants |
| AdvertState.CancelToken | src/Advert.cs:71 | cancelling through the handle stops exactly the handle's timer and no other; the handle is kept |
| AdvertState.StartAdvertTimer | src/Advert.cs:77-86 | the old timer is cancelled; Running afterwards exactly when the ad list is non-empty; an empty list registers no timer; a non-empty one registers exactly one new timer that becomes the handle; the one-live-timer invariant is kept |
| AdvertState.Unload | src/Advert.cs:70-75 | the handle is cleared and, from a state with only the handle's timer live, no timer is live afterwards; configuration, index and sent lines are kept |
| AdvertState.Load | src/Advert.cs:47-68 | the configuration is replaced and the timer restarted (the old timer cancelled; for a non-empty list exactly one new timer registered and held, for an empty one none registered and the cancelled handle kept); the index is kept, so the index is usable afterwards exactly when the new list is empty or longer than the old index |
| AdvertState.LoadRewound | src/Advert.cs:47-68 | corrected Load: configuration replaced, index 0, timer restarted as in Load, the index always usable |
| AdvertState.ShowNextAd | src/Advert.cs:88-97 | a tick succeeds exactly when the index is usable; on an empty list it changes nothing; otherwise it sends the formatted current ad and the index becomes (index + 1) mod the list length; the usable-index and timer invariants are kept |
| AdvertState.Fire | src/Advert.cs:85 | the scheduler runs the callback only for a live timer, and then the outcome is exactly ShowNextAd's; a cancelled or unknown timer changes nothing |
| AdvertRotation.Ticks | src/Advert.cs:88-97 | repeated ticks keep the index usable, keep configuration and timers, and send one line per tick on a non-empty list |
| AdvertRotation.TicksOnEmptyList | src/Advert.cs:89 | any number of ticks on an empty list send nothing and leave the index unchanged |
| AdvertRotation.TicksRotate | src/Advert.cs:91-96 | after k ticks the index is (start + k) mod n and the lines sent are the formatted ads start, start + 1, ... taken mod n |
| AdvertRotation.KthTickSends | src/Advert.cs:91-96 | the k-th tick sends the formatted ad at (start + k) mod n |
| AdvertRotation.FullCycle | src/Advert.cs:91-96 | n ticks return the state to its start except for the log, which gains every ad once, in rotated order from the starting ad |
| AdvertRotation.RotationPeriodic | src/Advert.cs:96 | k ticks and n + k ticks leave the same index |
| AdvertTimers.ValidLiveCount | src/Advert.cs:78-85 | in every state satisfying the timer invariant, one timer is live when Running and none when Idle |
| AdvertTimers.StartLeavesOneLive | src/Advert.cs:78-85 | after a start exactly one timer is live for a non-empty list and none for an empty one |
| AdvertTimers.StartTwice | src/Advert.cs:78-85 | two starts in a row leave exactly one live timer, and the first start's timer is cancelled |
| AdvertTimers.StartOnEmptyListRegistersNothing | src/Advert.cs:80-83 | a start on an empty list registers no timer, leaves none live, and no later firing reaches the callback |
| AdvertTimers.UnloadStopsEverything | src/Advert.cs:71-72 | after Unload no timer is live and no firing changes the state |
| AdvertTimers.UnloadIdempotent | src/Advert.cs:71-72 | a second Unload leaves the state the first one left |
| AdvertTimers.UnloadBeforeLoad | src/Advert.cs:70-75 | Unload on a freshly constructed plugin changes nothing |
| AdvertTimers.FireShowsCurrentAd | src/Advert.cs:91-94 | a live timer is the plugin's own, its ad list is non-empty, and its firing sends the formatted current ad |
| AdvertLifecycle.Step | src/Advert.cs:47-97 | with the corrected Load, one host event (load, unload or timer firing) keeps the timer invariant and a usable index, and never throws |
| AdvertLifecycle.Run | src/Advert.cs:47-97 | with the corrected Load, any sequence of host events from a sound state runs to completion with both invariants kept |
| AdvertLifecycle.SampleRotation | src/Advert.cs:47-97 | after the code's Load of prefix "[S]" with ads "A", "B" into a new plugin, three ticks send "[S] A", "[S] B", "[S] A" |
| AdvertLifecycle.StaleIndexAfterReload | src/Advert.cs:47-68 | as written: default list, two ticks, then Load of a one-ad list leaves the timer live and an index out of range, so the next tick throws |
| AdvertLifecycle.StaleIndexIsPermanent | src/Advert.cs:91 | with the index out of range every tick throws and changes nothing, so all later ticks throw too |
| AdvertLifecycle.RewoundLoadShowsFirstAd | src/Advert.cs:47-68 | with the corrected Load the next tick sends the first ad of the new list, whatever came before |
| AdvertPlugin.Advert.constructor | src/Advert.cs:39-45 | the object starts in AdvertState.Initial |
| AdvertPlugin.Advert.CancelToken | src/Advert.cs:71 | updates the object as AdvertState.CancelToken says |
| AdvertPlugin.Advert.StartAdvertTimer | src/Advert.cs:77-86 | updates the object as AdvertState.StartAdvertTimer says and keeps the timer invariant |
| AdvertPlugin.Advert.Load | src/Advert.cs:47-68 | updates the object as AdvertState.Load says |
| AdvertPlugin.Advert.LoadRewound | src/Advert.cs:47-68 | updates the object as AdvertState.LoadRewound says |
| AdvertPlugin.Advert.Unload | src/Advert.cs:70-75 | updates the object as AdvertState.Unload says |
| AdvertPlugin.Advert.ShowNextAd | src/Advert.cs:88-97 | reports the out-of-range exception exactly when AdvertState.ShowNextAd does, leaving the object unchanged then, and otherwise updates it as AdvertState.ShowNextAd says |

## Left out

- `Helper.Colored`, the host's color-tag translation, is not part of this model; `FormatMessage` yields the line before translation.
- Reading config.toml through the host's TOML configuration and the dependency-injection container (`ServiceProvider` build and dispose) are foreign library calls; `Load` takes an already parsed `MainConfigModel`, and neither a missing config.toml (it is added with `optional: false`, line 52) nor a malformed one, both of which abort the host's load, is modelled.
- `AdInterval` is a 32-bit float handed to the host scheduler; it is carried as a real and never computed with. When a timer fires is the host's business: a firing is the explicit `Fire` of a timer number.
- The thread safety of `CancellationTokenSource` is not modelled; the model assumes the host calls the plugin from one loop, one call at a time.
- `SendChat` delivery to players: a broadcast is an append to the log `sent` (a ghost field of the class).
- The `Console.WriteLine` diagnostics and the plugin metadata attribute have no effect on the state.
- C# null strings and a null ad list: `string.IsNullOrEmpty` is modelled for the empty string only, and the list is always present.
- The `hotReload` argument of `Load` is ignored by the source and by the model.
- `m_current_ad_index` is a 32-bit int in the source and a nat here; it only ever holds 0 or `(i + 1) % Count` with `i < Count`, so it cannot overflow.
- AdvertLifecycle.Run: runs every load event through `Step`, hence through the corrected `LoadRewound`; for the code's `Load` the usable-index half of its contract is false, as `AdvertLifecycle.StaleIndexAfterReload` shows.
- AdvertLifecycle.Step: uses the corrected `LoadRewound`, not the as-written `Load`, so that whole runs are stated for the repaired plugin; the as-written behaviour is stated by `AdvertState.Load` and `AdvertLifecycle.StaleIndexAfterReload`.

## Findings

| source | as written | input that shows it | evidently intended | confidence | as-written member | corrected member |
|---|---|---|---|---|---|---|
| src/Advert.cs:42 | the rotation index is set to 0 only when the object is built; `Load` replaces the ad list and restarts the timer but keeps the index | default list of three ads, two ticks (index 2), then `Load` of a list with one ad: the timer is live, `Ads[2]` throws on every tick, and no ad is shown again | the index restarts at the first ad whenever the configuration is replaced and the timer restarted | low, not executed: it matters only if the host calls `Load` twice on the same object, which the host code outside this repository decides | AdvertLifecycle.StaleIndexAfterReload | AdvertState.LoadRewound |
