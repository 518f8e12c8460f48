# channel.js scheduling core in Dafny

`channel.js` extends a Howler.js sound (a `Howl`) into a *channel*. A channel plays its
source in one of three modes:

- looped, with fade-in and fade-out envelopes;
- random, re-triggered at jittered random delays;
- crossfade.

It also trims the source to a sprite region (`skipFront` / `playFor`). This project
models the channel's scheduling and timing logic as pure transitions. Each operation
takes the channel `State` and returns a `Step`: the next state plus the list of calls
it makes into Howler and the timers (`Engine.Action`: play a region, stop, pause,
fade, loop, `setTimeout`, `clearTimeout`).

- `optional.dfy`: `Option`, for fields JavaScript leaves `undefined`.
- `js_value.dfy`: the JavaScript values a trim, fade or delay field can hold
  (`undefined`, booleans, integer milliseconds, `NaN`). It also holds the coercions
  the source applies to them: `<= 0`, `> 0`, `== 0`, `isNaN`, `-`, `Math.min`, `||`
  and `!== false ? … : min`.
- `random_schedule.dfy`: `_getRandomInts`, `_generateRandomTimers` and the random
  cursor of `_setRandomPlayTimer`.
- `timers.dfy`: the registry of named timers, `_timeouts`. Handles are allocated
  from a counter and never reused.
- `engine.dfy`: the emitted actions, the timer callbacks, and the values read back
  from Howler. These are `duration() * 1000` and `playing()`.
- `sprite.dfy`: the normalisation in `_updateSprite` and the region map of `sprite`.
- `fade.dfy`: `_getFadeOutTime` and the fade-in test of `_startFade`.
- `channel.dfy`: the channel record and every operation: the constructor, the
  setters, `play`, `stop`, `_updateSprite`, `_onEnd`, and the timer callbacks.
- `channel_properties.dfy`: properties that span several calls.

The values of `Math.random()` are an input sequence of reals in `[0, 1)`.
`setTimeout` becomes a `SetTimer(handle, delay, callback)` action. Firing a timer is
the matching handler function (`OnLoopTimer`, `OnRandomTimer`, `OnFadeOutTimer`,
`OnPauseTimer`), called with the sound id Howler returned.

The model follows the code, including where it does less than the channel's intended behaviour:

- Trim values are capped only from above. `skipFront(-5)` keeps -5, and
  `_updateSprite` keeps it too.
- `stop` cancels only the handles that are in the registry when it runs. Two kinds
  of timer escape it. One is the `offset` timer that `play` sets in looped and
  crossfade mode, which is never registered. The other is a handle that a later
  re-arm of the same slot overwrote.
- The fade-out timer fades over the channel's `fadeOut` as it is when the timer
  fires. It does not use the `min` fallback that placed the timer.

## Model

| member | source | states |
|---|---|---|
| RandomSchedule.Draw | channel.js:218 | one draw `floor(random * max)` lies in `[0, max)` when `max > 0` and is 0 when `max` is 0 |
| RandomSchedule.Sort | channel.js:220-223 | the numeric sort returns an ascending permutation of its input |
| RandomSchedule.RandomInts | channel.js:214-224 | `_getRandomInts` returns one value per random number, sorted ascending, a permutation of the raw draws, each in `[0, max)` when `max > 0` |
| RandomSchedule.ScheduleOf | channel.js:228-235 | from sorted draws `d`, the initial delay is `d[0]`, there are `|d|` repeat gaps, gap `i` is `d[i+1] - d[i]` and the last is `interval + d[0] - d[|d|-1]` |
| RandomSchedule.ScheduleOfNonNegative | channel.js:228-235 | sorted draws inside `[0, interval)` give no negative gap |
| RandomSchedule.Generate | channel.js:225-236 | the initial delay is the smallest draw; there are exactly `count` repeat gaps; gap `i` is `d[i+1] - d[i]` and the last is `interval + d[0] - d[count-1]`; all gaps are non-negative for a positive interval; the index is reset to undefined |
| RandomSchedule.GenerateSum | channel.js:229-235 | the initial delay plus all gaps sums to `interval + d[0]` |
| RandomSchedule.GenerateInverse | channel.js:227-235 | adding the gaps back up from the initial delay recovers the sorted draws followed by `interval + d[0]`: the schedule loses nothing |
| RandomSchedule.PositionsOfGaps | channel.js:231-233 | running sums of consecutive differences give back the boundaries they were taken from |
| RandomSchedule.GapsTelescope | channel.js:231-233 | consecutive differences sum to last minus first |
| RandomSchedule.Advance | channel.js:237-247 | with an undefined index the cursor uses the initial delay and moves to index 0; with index `i` it uses gap `i` and moves to `(i+1) mod count`; an index past the end is clamped to the last gap; the new index is always in `[0, count)` |
| RandomSchedule.RunFrom | channel.js:244-247 | from index `i`, the `j`-th firing uses gap `(i + j) mod count` |
| RandomSchedule.RunFromStart | channel.js:244-247 | from index 0, the `j`-th firing uses gap `j mod count` |
| RandomSchedule.RunCycles | channel.js:237-251 | after a fresh generation the first firing waits the initial delay, the `j`-th after it waits gap `(j-1) mod count`, and the delays repeat with period `count` |
| Timers.AllHandles | channel.js:256-258 | lists every handle in the registry, and only those, each once |
| Sprite.WithDefault | channel.js:44-52 | `sprite` keeps the caller's regions and always adds `__default = [0, durationMs]`, overriding a caller-supplied `__default` |
| Sprite.NormalSkipFront | channel.js:133-135 | undefined, boolean and NaN `skipFront` become 0; every number, negative ones included, is kept |
| Sprite.NormalPlayFor | channel.js:136-138 | undefined, non-positive, `false` and NaN `playFor` become `durationMs - skipFront`; a positive number or `true` is kept |
| Sprite.TrimmedPlayFor | channel.js:82-90 | after `playFor(time)` and its `_updateSprite`, for a positive source length: `true`/`false` give the source length, a positive number is capped at it, and a non-positive or non-number falls back to the rest after `skipFront`. For a source length of 0 or less (not yet loaded), a boolean or positive number is lost too and becomes `durationMs - skipFront` |
| Sprite.TrimmedSkipFront | channel.js:91-99 | after `skipFront(time)` and its `_updateSprite`: a boolean or non-number gives 0, and a number is capped at the source length and otherwise kept, negatives included |
| Sprite.NormaliseIdempotent | channel.js:131-139 | normalising already-normalised trims changes nothing |
| Fade.FadeOutStart | channel.js:172-181 | returns 0 when the effective fade-out (`fadeOut`, or `min` when it is `false`) is not positive and NaN when it is NaN; otherwise returns a start that, added to the fade-out, gives the play length |
| Fade.FadeOutWindow | channel.js:172-181 | with numeric settings, the start is positive exactly when `0 < fadeOut < play length`, and the fade then ends exactly at the play length |
| Fade.FadeOutDisabled | channel.js:174-177 | a `false` fade-out with the default `min` of 0 gives 0 |
| Fade.FadeOutExample | channel.js:172-181 | `playFor = 5000`, `fadeOut = 1000` gives a fade-out start of 4000 |
| Fade.FadeInLength | channel.js:192-198 | per kind of `fadeIn`: a number fades in over itself exactly when it is positive; `false` falls back to `min` and fades exactly when `min > 0`; `true` always fades; undefined and NaN never do |
| Channel.New | channel.js:3-35 | no id gives no channel; otherwise the given id is stored, with an empty registry, no schedule and no sprite, count defaulting to 1, interval to 60, `playFor` to undefined and the other falsy options to 0 |
| Channel.Stop | channel.js:253-260 | stops Howler first, then clears exactly the registered handles, each once; afterwards the registry is empty and nothing else in the state changes |
| Channel.StartFade | channel.js:192-198 | fades in from silence exactly when `FadeInLength` gives a length (so always for `fadeIn == true`), never when the fade-in is undefined or NaN, and never changes the state |
| Channel.EndFade | channel.js:199-207 | arms only the `fadeOut` slot, at the fade-out start, exactly when that start is positive, and overwrites the slot without cancelling it; otherwise does nothing |
| Channel.Fades | channel.js:166-170 | exactly the fade-in of `_startFade` when `FadeInLength` gives a length, followed by the `fadeOut` arm of `_endFade` when the fade-out start is positive; the registry changes only in that slot; other slots and the settings are untouched |
| Channel.PlayWithFade | channel.js:208-213 | plays the `once` region, then applies exactly the start and end envelope of `_startFade`/`_endFade` to it, leaving the state those two leave |
| Channel.SetRandomPlayTimer | channel.js:237-252 | arms the `random` slot with the cursor's next delay and advances the cursor; the schedule stays well formed |
| Channel.Play | channel.js:108-130 | random mode wins over crossfade, and crossfade over looped. Random mode turns looping off, regenerates the schedule, arms `random` with the initial delay and sets the index to 0. The other two modes set only an unregistered `offset` timer |
| Channel.Restart | channel.js:140-143 | when playing, stop followed by play, leaving only freshly allocated handles registered; otherwise nothing |
| Channel.UpdateSprite | channel.js:131-144 | normalises both trims and registers `looped`, `once` and `__default`. When playing, the result is exactly `stop` followed by `play` on the normalised, re-registered channel; otherwise only the trims and the sprite change and nothing is emitted |
| Channel.SetPlayFor | channel.js:82-90 | stores the trimmed `playFor` (see `Sprite.TrimmedPlayFor`) and the normalised `skipFront`, and registers `looped`, `once` and `__default` with them; when playing, the result is exactly `stop` followed by `play` on that channel, otherwise only the trims and the sprite change and nothing is emitted |
| Channel.SetSkipFront | channel.js:91-99 | stores the trimmed `skipFront` (see `Sprite.TrimmedSkipFront`), re-normalises `playFor` against it, and registers `looped`, `once` and `__default` with them; when playing, the result is exactly `stop` followed by `play` on that channel, otherwise only the trims and the sprite change and nothing is emitted |
| Channel.SetRandom | channel.js:53-65 | stores the three settings. The schedule is regenerated only when activating. When playing, the result is exactly `stop` followed by `play` on the reconfigured channel, and then only new handles stay registered; otherwise nothing else changes and nothing is emitted |
| Channel.SetCrossfade | channel.js:66-73 | stores the flag; when playing, the result is exactly `stop` followed by `play` on the reconfigured channel, dispatching to crossfade when it was switched on outside random mode; otherwise only the flag changes |
| Channel.OnEnd | channel.js:149-171 | does nothing in random or crossfade mode. With a positive `pausetime` it pauses and arms only the `pausetime` slot. Otherwise it applies the envelope at once, with no pause and no `pausetime` timer, leaving exactly the state `_endFade` leaves |
| Channel.OnLoopTimer | channel.js:123-127 | plays the `looped` region, then emits exactly the start and end envelope of that instance, leaving the state the envelope leaves |
| Channel.OnRandomTimer | channel.js:248-251 | re-arms the `random` slot with the next delay before it plays the `once` region, then emits exactly `_playWithFade` on the re-armed channel and leaves the state it leaves |
| Channel.OnPauseTimer | channel.js:161-165 | runs the channel's own `play` first, then exactly the start and end envelope of the paused instance, on the state `play` left |
| ChannelProperties.RandomDelaysFollowSchedule | channel.js:248-251 | successive random firings arm exactly the delays the cursor walks through |
| ChannelProperties.DelaysFromStart | channel.js:244-251 | with the cursor at index 0, the `j`-th firing arms gap `j mod count` |
| ChannelProperties.RandomModeCycles | channel.js:237-251 | after `play` in random mode, the first timer waits the initial delay and the `j`-th firing re-arms with gap `j mod count` |
| ChannelProperties.StopMissesOffsetTimer | channel.js:253-260 | the unregistered `offset` timer that `play` sets outside random mode is not cancelled by a following `stop` |
| ChannelProperties.RearmLosesHandle | channel.js:203-205 | arming `fadeOut` twice loses the first handle: neither the re-arm nor a later `stop` cancels it |
| ChannelProperties.FadeOutEndsAtPlayLength | channel.js:199-207 | with numeric settings the fade-out timer waits `playFor - fadeOut` and then fades over `fadeOut`, so the instance falls silent exactly at the end of its play length |
| ChannelProperties.PauseThenResume | channel.js:158-165 | in looped mode with a positive `pausetime`, an end pauses and arms `pausetime`; its firing runs `play`, which arms a fresh `offset` timer first, and the fired handle stays in the `pausetime` slot |
| ChannelProperties.UpdateSpriteIdempotent | channel.js:131-139 | running `_updateSprite` again on a channel that is not playing changes nothing |
| ChannelProperties.ReconfigureRandomWhilePlaying | channel.js:53-65 | `random(true, …)` while playing cancels every old handle and leaves only a new `random` slot armed, after turning looping off |
| ChannelProperties.TrimExamples | channel.js:82-99 | for a 10 s source, `playFor(true)` and `playFor(10500)` give 10000, `skipFront(true)` gives 0, and `skipFront(-5)` gives -5 |

## Left out

- `_crossFade` (channel.js:182-191) is not modelled. When the `CrossfadeStart`
  timer fires, it plays the `once` region and runs `_startFade` and `_endFade` with
  `min` 1000, which can fade the instance in and arm the `fadeOut` slot. It then
  reads the undefined `min` at channel.js:187 and throws a `ReferenceError`, so the
  misspelt `setTimout` and the call of the boolean `_crossfade` are never reached.
  Crossfade mode is modelled only as far as `play` arming the `CrossfadeStart`
  timer. The play, the fades and the `fadeOut` arm of a firing are not modelled.
- Howler itself: `init`, `play`, `stop`, `pause`, `fade`, `volume`, `loop`,
  `playing`, `duration` and `on`. These become emitted actions or the `Host`
  snapshot. The handlers registered with `on('end')` and `on('load')` are `OnEnd`
  and `OnLoad`.
- `_getElement`, `elementFormat` and the `id()` accessor. They are a DOM lookup and
  a getter, not scheduling.
- The `console.error` in the constructor. A missing id is modelled only as "no
  channel".
- The prototype linking and the AMD, CommonJS and global export code at the end of
  the file.
- Real time and real randomness. Timers are handles and callbacks; the random
  numbers are an input.
- Floating point. Durations, delays and draws are whole milliseconds, and
  `randomInterval` is a whole number, so `Math.floor(max)` is the identity.
  Strings, objects and `null` in the numeric fields are not modelled either.
- `random` and `crossfade` are stored as booleans, so the truthiness of other
  values passed to their setters is not modelled. In the constructor's options, a
  `randomCount` or `randomInterval` of 0 stands for a missing option.
- Schedule generation requires `randomCount >= 1` and exactly `randomCount` random
  numbers. With a count of 0 the source's `% length` at channel.js:247 divides by
  zero, and the random setter does not guard against it.
- `random(active, count, interval)` with an undefined or NaN `count` or `interval`
  is not modelled. Both are whole numbers here, so the default count of 1 that
  `_getRandomInts(max, count = 1)` (channel.js:214) gives an undefined count is not
  modelled either.
- `OnRandomTimer` requires a generated schedule. The random timer is only armed
  after one exists.
- `OnLoad` (channel.js:145-148) is `_updateSprite` unchanged, so it has no contract
  of its own; `UpdateSprite` states what it does.
- `fadeIn`, `fadeOut`, `pausetime` and `offset` (channel.js:74-81, 100-107) are
  stored by `SetFadeIn`, `SetFadeOut`, `SetPausetime` and `SetOffset`, which have
  no contracts of their own.
- Timers.AllHandles: visits the slots in the fixed order `pausetime`, `fadeOut`,
  `random`, `crossfade`. `Object.values` visits them in the order they were first
  assigned. The set of handles cancelled is the same.
- Channel.Stop: cancels in the same fixed order as `Timers.AllHandles`, for the same
  reason.
