/** One audio channel of channel.js: its settings, its timer registry and
    its random schedule, with every operation a pure transition that returns
    the next state and the calls it makes into Howler and the timers. */
module Channel {

  import opened Optional
  import opened JsValue
  import opened Timers
  import opened Engine
  import RandomSchedule
  import Sprite
  import Fade

  /** The constructor's option object. A count or interval of 0 stands for
      an option that was left out. */
  datatype Options = Options(
    id: Option<string>,
    random: bool,
    randomCount: int,
    randomInterval: int,
    crossfade: bool,
    playFor: Value,
    skipFront: Value,
    fadeIn: Value,
    fadeOut: Value,
    pausetime: Value,
    offset: Value)

  datatype State = State(
    id: string,
    random: bool,
    randomCount: int,
    randomInterval: int,
    crossfade: bool,
    playFor: Value,
    skipFront: Value,
    fadeIn: Value,
    fadeOut: Value,
    pausetime: Value,
    offset: Value,
    schedule: Option<RandomSchedule.Schedule>,  // undefined until first generated
    sprite: Option<Sprite.SpriteMap>,           // undefined until the first _updateSprite
    timeouts: Registry,
    nextHandle: Handle)                         // the next handle setTimeout returns

  /** The state after a call, and what the call asked of Howler and the timers, in order. */
  datatype Step = Step(ch: State, actions: seq<Action>)

  /** What every reachable state satisfies. */
  predicate Valid(st: State)
  {
    && Fresh(st.timeouts, st.nextHandle)
    && Distinct(st.timeouts)
    && (st.schedule.Some? ==> RandomSchedule.WellFormed(st.schedule.value))
  }

  /** The two states agree on every setting. */
  predicate SameSettings(a: State, b: State)
  {
    && a.id == b.id && a.random == b.random && a.randomCount == b.randomCount
    && a.randomInterval == b.randomInterval && a.crossfade == b.crossfade
    && a.playFor == b.playFor && a.skipFront == b.skipFront
    && a.fadeIn == b.fadeIn && a.fadeOut == b.fadeOut
    && a.pausetime == b.pausetime && a.offset == b.offset
  }

  /** The `Math.random()` values one schedule generation consumes. */
  predicate DrawsFor(st: State, u: seq<real>)
  {
    st.randomCount >= 1 && |u| == st.randomCount && RandomSchedule.Uniform(u)
  }

  /** Every timer set during the step got a handle that was new when it was set. */
  predicate FreshTimers(st: State, r: Step)
  {
    && st.nextHandle <= r.ch.nextHandle
    && forall i :: 0 <= i < |r.actions| && r.actions[i].SetTimer? ==>
         st.nextHandle <= r.actions[i].handle < r.ch.nextHandle
  }

  function Then(first: Step, second: Step): Step
  {
    Step(second.ch, first.actions + second.actions)
  }

  /** `self._timeouts[name] = setTimeout(cb, delay)`: the slot's previous
      handle, if any, is overwritten without being cancelled. */
  function Arm(st: State, name: TimerName, delay: Value, cb: Callback): Step
  {
    Step(st.(timeouts := st.timeouts[name := st.nextHandle], nextHandle := st.nextHandle + 1),
         [SetTimer(st.nextHandle, delay, cb)])
  }

  /** `setTimeout(cb, delay)` whose handle is kept nowhere. */
  function Later(st: State, delay: Value, cb: Callback): Step
  {
    Step(st.(nextHandle := st.nextHandle + 1), [SetTimer(st.nextHandle, delay, cb)])
  }

  /** The constructor and `init_channel`: no id means no channel; otherwise
      every left-out option takes its default. */
  function New(o: Options): (r: Option<State>)
    ensures r.None? <==> o.id.None?
    ensures r.Some? ==> Valid(r.value)
    ensures r.Some? ==> r.value.id == o.id.value
    ensures r.Some? ==> r.value.timeouts == map[] && r.value.schedule.None? && r.value.sprite.None?
    ensures r.Some? ==> r.value.randomCount == (if o.randomCount != 0 then o.randomCount else 1)
    ensures r.Some? ==> r.value.randomInterval == (if o.randomInterval != 0 then o.randomInterval else 60)
    ensures r.Some? ==> r.value.random == o.random && r.value.crossfade == o.crossfade
    ensures r.Some? ==> r.value.playFor == (if Truthy(o.playFor) then o.playFor else Undefined)
    ensures r.Some? ==> r.value.skipFront == (if Truthy(o.skipFront) then o.skipFront else Num(0))
    ensures r.Some? ==> r.value.fadeIn == (if Truthy(o.fadeIn) then o.fadeIn else Num(0))
    ensures r.Some? ==> r.value.fadeOut == (if Truthy(o.fadeOut) then o.fadeOut else Num(0))
    ensures r.Some? ==> r.value.pausetime == (if Truthy(o.pausetime) then o.pausetime else Num(0))
    ensures r.Some? ==> r.value.offset == (if Truthy(o.offset) then o.offset else Num(0))
  {
    match o.id
    case None => None
    case Some(id) =>
      Some(State(
        id := id,
        random := o.random,
        randomCount := if o.randomCount != 0 then o.randomCount else 1,
        randomInterval := if o.randomInterval != 0 then o.randomInterval else 60,
        crossfade := o.crossfade,
        playFor := Or(o.playFor, Undefined),
        skipFront := Or(o.skipFront, Num(0)),
        fadeIn := Or(o.fadeIn, Num(0)),
        fadeOut := Or(o.fadeOut, Num(0)),
        pausetime := Or(o.pausetime, Num(0)),
        offset := Or(o.offset, Num(0)),
        schedule := None,
        sprite := None,
        timeouts := map[],
        nextHandle := 0))
  }

  /** One `clearTimeout` per handle, in order. */
  function Clears(hs: seq<Handle>): (r: seq<Action>)
    ensures |r| == |hs|
    ensures forall i :: 0 <= i < |r| ==> r[i] == ClearTimer(hs[i])
    ensures forall h :: ClearTimer(h) in r <==> h in hs
    ensures NoDuplicates(hs) ==> NoDuplicates(r)
  {
    if hs == [] then [] else [ClearTimer(hs[0])] + Clears(hs[1..])
  }

  /** Stop Howler, then one `clearTimeout` per handle, in order. */
  function StopThenClear(hs: seq<Handle>): (r: seq<Action>)
    ensures |r| == |hs| + 1 && r[0] == StopSounds
    ensures forall i :: 1 <= i < |r| ==> r[i] == ClearTimer(hs[i - 1])
    ensures forall h :: ClearTimer(h) in r <==> h in hs
    ensures NoDuplicates(hs) ==> NoDuplicates(r)
  {
    var clears := Clears(hs);
    assert forall a :: a in [StopSounds] + clears <==> a == StopSounds || a in clears;
    [StopSounds] + clears
  }

  /** `stop`: stop Howler, cancel every handle the registry holds, empty it. */
  function Stop(st: State): (r: Step)
    ensures r.ch == st.(timeouts := map[])
    ensures |r.actions| >= 1 && r.actions[0] == StopSounds
    ensures forall i :: 1 <= i < |r.actions| ==> r.actions[i].ClearTimer?
    ensures forall h :: ClearTimer(h) in r.actions <==> h in st.timeouts.Values
    ensures Distinct(st.timeouts) ==> NoDuplicates(r.actions)
    ensures Valid(st) ==> Valid(r.ch)
  {
    Step(st.(timeouts := map[]), StopThenClear(AllHandles(st.timeouts)))
  }

  /** `_startFade(soundId, min)`: fade the instance in from silence when the
      effective fade-in is positive; the state does not change. */
  function StartFade(st: State, sound: SoundId, min: int): (r: Step)
    ensures r.ch == st
    ensures st.fadeIn.Num? ==> (r.actions != [] <==> st.fadeIn.n > 0)
    ensures st.fadeIn == Bool(false) ==> (r.actions != [] <==> min > 0)
    ensures st.fadeIn == Undefined || st.fadeIn == NaN ==> r.actions == []
    ensures r.actions != [] <==> Fade.FadeInLength(st.fadeIn, min).Some?
    ensures st.fadeIn == Bool(true) ==> r.actions == [Fade(sound, Silent, Current, Bool(true))]
    ensures r.actions == [] || r.actions == [Fade(sound, Silent, Current, Fade.FadeInLength(st.fadeIn, min).value)]
  {
    match Fade.FadeInLength(st.fadeIn, min)
    case Some(length) => Step(st, [Fade(sound, Silent, Current, length)])
    case None => Step(st, [])
  }

  /** `_endFade(soundId, min)`: arm the `fadeOut` slot at the fade-out start
      when that is positive; otherwise do nothing. */
  function EndFade(st: State, sound: SoundId, durationMs: int, min: int): (r: Step)
    ensures var t := Fade.FadeOutStart(st.fadeOut, st.playFor, durationMs, min);
            && (Gt(t, 0) ==> r.actions == [SetTimer(st.nextHandle, t, FadeOutFire(sound))]
                             && r.ch.timeouts == st.timeouts[FadeOut := st.nextHandle])
            && (!Gt(t, 0) ==> r == Step(st, []))
    ensures SameSettings(st, r.ch) && r.ch.schedule == st.schedule && r.ch.sprite == st.sprite
    ensures FreshTimers(st, r)
    ensures Valid(st) ==> Valid(r.ch)
  {
    var t := Fade.FadeOutStart(st.fadeOut, st.playFor, durationMs, min);
    if Gt(t, 0) then Arm(st, FadeOut, t, FadeOutFire(sound)) else Step(st, [])
  }

  /** `_startFade(soundId)` followed by `_endFade(soundId)`, with `min` 0. */
  function Fades(st: State, sound: SoundId, durationMs: int): (r: Step)
    ensures var f := Fade.FadeInLength(st.fadeIn, 0);
            var t := Fade.FadeOutStart(st.fadeOut, st.playFor, durationMs, 0);
            && r.actions == (if f.Some? then [Fade(sound, Silent, Current, f.value)] else [])
                            + (if Gt(t, 0) then [SetTimer(st.nextHandle, t, FadeOutFire(sound))] else [])
            && r.ch.timeouts == (if Gt(t, 0) then st.timeouts[FadeOut := st.nextHandle] else st.timeouts)
    ensures forall i :: 0 <= i < |r.actions| ==>
              r.actions[i].Fade? || (r.actions[i].SetTimer? && r.actions[i].callback == FadeOutFire(sound))
    ensures r.ch.timeouts.Keys <= st.timeouts.Keys + {FadeOut}
    ensures forall n :: n in st.timeouts && n != FadeOut ==> n in r.ch.timeouts && r.ch.timeouts[n] == st.timeouts[n]
    ensures SameSettings(st, r.ch) && r.ch.schedule == st.schedule && r.ch.sprite == st.sprite
    ensures FreshTimers(st, r)
    ensures Valid(st) ==> Valid(r.ch)
  {
    Then(StartFade(st, sound, 0), EndFade(st, sound, durationMs, 0))
  }

  /** `_playWithFade`: play the `once` region, then envelope the new instance. */
  function PlayWithFade(st: State, sound: SoundId, durationMs: int): (r: Step)
    ensures |r.actions| >= 1 && r.actions[0] == PlayRegion(Sprite.OnceName)
    ensures r.actions[1..] == Fades(st, sound, durationMs).actions
    ensures r.ch == Fades(st, sound, durationMs).ch
  {
    Then(Step(st, [PlayRegion(Sprite.OnceName)]), Fades(st, sound, durationMs))
  }

  /** `_generateRandomTimers` on the channel's interval with the draws `u`. */
  function Regenerate(st: State, u: seq<real>): (r: State)
    requires DrawsFor(st, u)
    ensures r == st.(schedule := r.schedule)
    ensures r.schedule == Some(RandomSchedule.Generate(st.randomInterval, u))
    ensures Valid(st) ==> Valid(r)
  {
    st.(schedule := Some(RandomSchedule.Generate(st.randomInterval, u)))
  }

  /** `_setRandomPlayTimer`: take the next delay from the schedule, move the
      cursor and arm the `random` slot with it. */
  function SetRandomPlayTimer(st: State): (r: Step)
    requires st.schedule.Some? && |st.schedule.value.gaps| >= 1
    ensures r.ch.schedule.Some? && RandomSchedule.WellFormed(r.ch.schedule.value)
    ensures r.ch.schedule.value == RandomSchedule.Advance(st.schedule.value).1
    ensures r.actions == [SetTimer(st.nextHandle, Num(RandomSchedule.Advance(st.schedule.value).0), RandomFire)]
    ensures r.ch.timeouts == st.timeouts[Random := st.nextHandle]
    ensures SameSettings(st, r.ch) && r.ch.sprite == st.sprite
    ensures FreshTimers(st, r)
    ensures Valid(st) ==> Valid(r.ch)
  {
    var (delay, next) := RandomSchedule.Advance(st.schedule.value);
    Arm(st.(schedule := Some(next)), Random, Num(delay), RandomFire)
  }

  /** `play`: random mode first, then crossfade, then looped. Random mode
      turns Howler's looping off, draws a fresh schedule and arms the
      `random` slot with its initial delay; the other two modes set an
      unregistered timer for `offset`. */
  function Play(st: State, u: seq<real>): (r: Step)
    requires st.random ==> DrawsFor(st, u)
    ensures SameSettings(st, r.ch) && r.ch.sprite == st.sprite
    ensures st.random ==>
              var s := RandomSchedule.Generate(st.randomInterval, u);
              && r.actions == [Loop(false), SetTimer(st.nextHandle, Num(s.first), RandomFire)]
              && r.ch.schedule == Some(s.(index := Some(0)))
              && r.ch.timeouts == st.timeouts[Random := st.nextHandle]
    ensures !st.random && st.crossfade ==>
              r.actions == [SetTimer(st.nextHandle, st.offset, CrossfadeStart)]
              && r.ch.timeouts == st.timeouts && r.ch.schedule == st.schedule
    ensures !st.random && !st.crossfade ==>
              r.actions == [SetTimer(st.nextHandle, st.offset, LoopStart)]
              && r.ch.timeouts == st.timeouts && r.ch.schedule == st.schedule
    ensures FreshTimers(st, r)
    ensures Valid(st) ==> Valid(r.ch)
  {
    if st.random then
      Then(Step(st, [Loop(false)]), SetRandomPlayTimer(Regenerate(st, u)))
    else if st.crossfade then
      Later(st, st.offset, CrossfadeStart)
    else
      Later(st, st.offset, LoopStart)
  }

  /** The `if (self.playing()) { self.stop(); self.play(); }` tail of the
      reconfiguring calls. */
  function Restart(st: State, host: Host, u: seq<real>): (r: Step)
    requires host.playing && st.random ==> DrawsFor(st, u)
    ensures !host.playing ==> r == Step(st, [])
    ensures host.playing ==> r == Then(Stop(st), Play(st.(timeouts := map[]), u))
    ensures host.playing ==> forall n :: n in r.ch.timeouts ==> r.ch.timeouts[n] >= st.nextHandle
    ensures SameSettings(st, r.ch) && r.ch.sprite == st.sprite
    ensures Valid(st) ==> Valid(r.ch)
  {
    if host.playing then Then(Stop(st), Play(Stop(st).ch, u)) else Step(st, [])
  }

  /** `_updateSprite`: normalise the trims, register the `looped`, `once` and
      `__default` regions, and restart if playing. */
  function UpdateSprite(st: State, host: Host, u: seq<real>): (r: Step)
    requires host.playing && st.random ==> DrawsFor(st, u)
    ensures r.ch.skipFront == Sprite.NormalSkipFront(st.skipFront)
    ensures r.ch.playFor == Sprite.NormalPlayFor(st.playFor, r.ch.skipFront.n, host.durationMs)
    ensures r.ch.sprite.Some?
    ensures var m := r.ch.sprite.value;
            && m.Keys == {Sprite.LoopedName, Sprite.OnceName, Sprite.DefaultName}
            && m[Sprite.LoopedName] == m[Sprite.OnceName] == Sprite.Region(r.ch.skipFront, r.ch.playFor, Some(true))
            && m[Sprite.DefaultName] == Sprite.Region(Num(0), Num(host.durationMs), None)
    ensures SameSettings(st.(skipFront := r.ch.skipFront, playFor := r.ch.playFor), r.ch)
    ensures !host.playing ==> r.actions == [] && r.ch.timeouts == st.timeouts
    ensures host.playing ==> |r.actions| >= 1 && r.actions[0] == StopSounds
    ensures host.playing ==>
              var s' := st.(skipFront := r.ch.skipFront, playFor := r.ch.playFor, sprite := r.ch.sprite);
              r == Then(Stop(s'), Play(s'.(timeouts := map[]), u))
    ensures !host.playing ==>
              r == Step(st.(skipFront := r.ch.skipFront, playFor := r.ch.playFor, sprite := r.ch.sprite), [])
    ensures Valid(st) ==> Valid(r.ch)
  {
    var sf := Sprite.NormalSkipFront(st.skipFront);
    var pf := Sprite.NormalPlayFor(st.playFor, sf.n, host.durationMs);
    var regions := Sprite.WithDefault(Sprite.TrimRegions(sf, pf), host.durationMs);
    Restart(st.(skipFront := sf, playFor := pf, sprite := Some(regions)), host, u)
  }

  /** The `load` handler. */
  function OnLoad(st: State, host: Host, u: seq<real>): (r: Step)
    requires host.playing && st.random ==> DrawsFor(st, u)
  {
    UpdateSprite(st, host, u)
  }

  /** `playFor(time)`: a boolean selects the whole source, a number is capped
      at the source's length (never raised); then `_updateSprite`. */
  function SetPlayFor(st: State, time: Value, host: Host, u: seq<real>): (r: Step)
    requires host.playing && st.random ==> DrawsFor(st, u)
    ensures r.ch.playFor == Sprite.TrimmedPlayFor(time, st.skipFront, host.durationMs)
    ensures r.ch.skipFront == Sprite.NormalSkipFront(st.skipFront)
    ensures r.ch.sprite.Some?
    ensures var m := r.ch.sprite.value;
            && m.Keys == {Sprite.LoopedName, Sprite.OnceName, Sprite.DefaultName}
            && m[Sprite.LoopedName] == m[Sprite.OnceName] == Sprite.Region(r.ch.skipFront, r.ch.playFor, Some(true))
            && m[Sprite.DefaultName] == Sprite.Region(Num(0), Num(host.durationMs), None)
    ensures !host.playing ==> r.actions == []
    ensures host.playing ==> |r.actions| >= 1 && r.actions[0] == StopSounds
    ensures host.playing ==>
              var s' := st.(skipFront := r.ch.skipFront, playFor := r.ch.playFor, sprite := r.ch.sprite);
              r == Then(Stop(s'), Play(s'.(timeouts := map[]), u))
    ensures !host.playing ==>
              r == Step(st.(skipFront := r.ch.skipFront, playFor := r.ch.playFor, sprite := r.ch.sprite), [])
    ensures Valid(st) ==> Valid(r.ch)
  {
    UpdateSprite(st.(playFor := Sprite.CapPlayFor(time, host.durationMs)), host, u)
  }

  /** `skipFront(time)`: a boolean resets to 0, a number is capped at the
      source's length and otherwise kept, negative numbers included; then
      `_updateSprite`. */
  function SetSkipFront(st: State, time: Value, host: Host, u: seq<real>): (r: Step)
    requires host.playing && st.random ==> DrawsFor(st, u)
    ensures r.ch.skipFront == Sprite.TrimmedSkipFront(time, host.durationMs)
    ensures r.ch.playFor == Sprite.NormalPlayFor(st.playFor, r.ch.skipFront.n, host.durationMs)
    ensures r.ch.sprite.Some?
    ensures var m := r.ch.sprite.value;
            && m.Keys == {Sprite.LoopedName, Sprite.OnceName, Sprite.DefaultName}
            && m[Sprite.LoopedName] == m[Sprite.OnceName] == Sprite.Region(r.ch.skipFront, r.ch.playFor, Some(true))
            && m[Sprite.DefaultName] == Sprite.Region(Num(0), Num(host.durationMs), None)
    ensures !host.playing ==> r.actions == []
    ensures host.playing ==> |r.actions| >= 1 && r.actions[0] == StopSounds
    ensures host.playing ==>
              var s' := st.(skipFront := r.ch.skipFront, playFor := r.ch.playFor, sprite := r.ch.sprite);
              r == Then(Stop(s'), Play(s'.(timeouts := map[]), u))
    ensures !host.playing ==>
              r == Step(st.(skipFront := r.ch.skipFront, playFor := r.ch.playFor, sprite := r.ch.sprite), [])
    ensures Valid(st) ==> Valid(r.ch)
  {
    UpdateSprite(st.(skipFront := Sprite.CapSkipFront(time, host.durationMs)), host, u)
  }

  /** The first half of `random(active, count, interval)`: the three settings
      stored and, only when activating, a freshly drawn schedule; nothing
      else changes. */
  function RandomSettings(st: State, active: bool, count: int, interval: int, u: seq<real>): (r: State)
    requires active ==> count >= 1 && |u| == count && RandomSchedule.Uniform(u)
    ensures r == st.(random := active, randomCount := count, randomInterval := interval, schedule := r.schedule)
    ensures r.schedule == if active then Some(RandomSchedule.Generate(interval, u)) else st.schedule
    ensures Valid(st) ==> Valid(r)
  {
    var st1 := st.(random := active, randomCount := count, randomInterval := interval);
    if active then Regenerate(st1, u) else st1
  }

  /** `random(active, count, interval)`: store the three settings, draw a
      fresh schedule only when activating, and restart if playing (the
      restart's `play` draws again, from `replay`). */
  function SetRandom(st: State, active: bool, count: int, interval: int, host: Host,
                     u: seq<real>, replay: seq<real>): (r: Step)
    requires active ==> count >= 1 && |u| == count && RandomSchedule.Uniform(u)
    requires active && host.playing ==> |replay| == count && RandomSchedule.Uniform(replay)
    ensures r.ch.random == active && r.ch.randomCount == count && r.ch.randomInterval == interval
    ensures !active ==> r.ch.schedule == st.schedule
    ensures active && !host.playing ==> r.ch.schedule == Some(RandomSchedule.Generate(interval, u))
    ensures active && host.playing ==>
              r.ch.schedule == Some(RandomSchedule.Generate(interval, replay).(index := Some(0)))
    ensures !host.playing ==> r.actions == [] && r.ch.timeouts == st.timeouts
    ensures host.playing ==> |r.actions| >= 1 && r.actions[0] == StopSounds
    ensures host.playing ==>
              var s' := RandomSettings(st, active, count, interval, u);
              r == Then(Stop(s'), Play(s'.(timeouts := map[]), replay))
    ensures !host.playing ==> r == Step(RandomSettings(st, active, count, interval, u), [])
    ensures host.playing ==> forall n :: n in r.ch.timeouts ==> r.ch.timeouts[n] >= st.nextHandle
    ensures Valid(st) ==> Valid(r.ch)
  {
    Restart(RandomSettings(st, active, count, interval, u), host, replay)
  }

  /** `crossfade(active)`: store the setting and restart if playing. */
  function SetCrossfade(st: State, active: bool, host: Host, u: seq<real>): (r: Step)
    requires host.playing && st.random ==> DrawsFor(st, u)
    ensures r.ch.crossfade == active
    ensures !host.playing ==> r == Step(st.(crossfade := active), [])
    ensures host.playing ==> |r.actions| >= 1 && r.actions[0] == StopSounds
    ensures host.playing ==>
              var s' := st.(crossfade := active);
              r == Then(Stop(s'), Play(s'.(timeouts := map[]), u))
    ensures host.playing && !st.random && active ==>
              r.actions[|r.actions| - 1] == SetTimer(st.nextHandle, st.offset, CrossfadeStart)
    ensures host.playing ==> forall n :: n in r.ch.timeouts ==> r.ch.timeouts[n] >= st.nextHandle
    ensures Valid(st) ==> Valid(r.ch)
  {
    Restart(st.(crossfade := active), host, u)
  }

  /** `fadeIn(v)`, `fadeOut(v)`, `pausetime(v)`, `offset(v)`: store only. */
  function SetFadeIn(st: State, v: Value): State { st.(fadeIn := v) }
  function SetFadeOut(st: State, v: Value): State { st.(fadeOut := v) }
  function SetPausetime(st: State, v: Value): State { st.(pausetime := v) }
  function SetOffset(st: State, v: Value): State { st.(offset := v) }

  /** The `end` handler `_onEnd(soundId)`: nothing in random or crossfade
      mode; with a positive `pausetime`, pause the instance and arm only the
      `pausetime` slot; otherwise envelope the instance again at once. */
  function OnEnd(st: State, sound: SoundId, host: Host): (r: Step)
    ensures st.random || st.crossfade ==> r == Step(st, [])
    ensures !st.random && !st.crossfade && Gt(st.pausetime, 0) ==>
              && r.actions == [Pause(sound), SetTimer(st.nextHandle, st.pausetime, PauseResume(sound))]
              && r.ch.timeouts == st.timeouts[Pausetime := st.nextHandle]
    ensures !Gt(st.pausetime, 0) ==>
              && (forall i :: 0 <= i < |r.actions| ==> !r.actions[i].Pause?)
              && (Pausetime in r.ch.timeouts <==> Pausetime in st.timeouts)
    ensures !st.random && !st.crossfade && !Gt(st.pausetime, 0) ==>
              r.actions == StartFade(st, sound, 0).actions + EndFade(st, sound, host.durationMs, 0).actions
              && r.ch == EndFade(st, sound, host.durationMs, 0).ch
    ensures SameSettings(st, r.ch) && r.ch.schedule == st.schedule && r.ch.sprite == st.sprite
    ensures FreshTimers(st, r)
    ensures Valid(st) ==> Valid(r.ch)
  {
    if st.random || st.crossfade then Step(st, [])
    else if st.pausetime != Bool(false) && Gt(st.pausetime, 0) then
      Then(Step(st, [Pause(sound)]), Arm(st, Pausetime, st.pausetime, PauseResume(sound)))
    else
      Fades(st, sound, host.durationMs)
  }

  /** The `LoopStart` timer of looped mode: play the `looped` region and
      envelope the new instance once. */
  function OnLoopTimer(st: State, sound: SoundId, host: Host): (r: Step)
    ensures |r.actions| >= 1 && r.actions[0] == PlayRegion(Sprite.LoopedName)
    ensures forall i :: 1 <= i < |r.actions| ==> !r.actions[i].PlayRegion?
    ensures r.actions[1..] == Fades(st, sound, host.durationMs).actions
    ensures r.ch == Fades(st, sound, host.durationMs).ch
    ensures r.ch.timeouts.Keys <= st.timeouts.Keys + {FadeOut}
    ensures SameSettings(st, r.ch) && r.ch.schedule == st.schedule
    ensures Valid(st) ==> Valid(r.ch)
  {
    Then(Step(st, [PlayRegion(Sprite.LoopedName)]), Fades(st, sound, host.durationMs))
  }

  /** The `RandomFire` timer: re-arm the `random` slot with the next delay
      first, then play the `once` region with its envelope. */
  function OnRandomTimer(st: State, sound: SoundId, host: Host): (r: Step)
    requires st.schedule.Some? && |st.schedule.value.gaps| >= 1
    ensures |r.actions| >= 2
    ensures r.actions[0] == SetTimer(st.nextHandle, Num(RandomSchedule.Advance(st.schedule.value).0), RandomFire)
    ensures r.actions[1] == PlayRegion(Sprite.OnceName)
    ensures r.actions[1..] == PlayWithFade(SetRandomPlayTimer(st).ch, sound, host.durationMs).actions
    ensures r.ch == PlayWithFade(SetRandomPlayTimer(st).ch, sound, host.durationMs).ch
    ensures Random in r.ch.timeouts && r.ch.timeouts[Random] == st.nextHandle
    ensures r.ch.schedule == Some(RandomSchedule.Advance(st.schedule.value).1)
    ensures SameSettings(st, r.ch)
    ensures Valid(st) ==> Valid(r.ch)
  {
    var armed := SetRandomPlayTimer(st);
    Then(armed, PlayWithFade(armed.ch, sound, host.durationMs))
  }

  /** The `FadeOutFire` timer: fade the instance from its volume to silence
      over the channel's `fadeOut` as it is when the timer fires (not the
      `min` fallback used to place the timer). */
  function OnFadeOutTimer(st: State, sound: SoundId): (r: Step)
    ensures r.ch == st
    ensures r.actions == [Fade(sound, Current, Silent, st.fadeOut)]
  {
    Step(st, [Fade(sound, Current, Silent, st.fadeOut)])
  }

  /** The `PauseResume` timer: the channel's own `play` (which ignores the
      sound id), then the paused instance's envelope. */
  function OnPauseTimer(st: State, sound: SoundId, host: Host, u: seq<real>): (r: Step)
    requires st.random ==> DrawsFor(st, u)
    ensures |Play(st, u).actions| <= |r.actions|
    ensures r.actions[..|Play(st, u).actions|] == Play(st, u).actions
    ensures r.actions[|Play(st, u).actions|..] == Fades(Play(st, u).ch, sound, host.durationMs).actions
    ensures r.ch == Fades(Play(st, u).ch, sound, host.durationMs).ch
    ensures SameSettings(st, r.ch)
    ensures Valid(st) ==> Valid(r.ch)
  {
    var p := Play(st, u);
    Then(p, Fades(p.ch, sound, host.durationMs))
  }
}
