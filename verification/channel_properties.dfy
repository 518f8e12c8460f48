/** Properties of the channel that span several calls. */
module ChannelProperties {

  import opened Optional
  import opened JsValue
  import opened Timers
  import opened Engine
  import RandomSchedule
  import Sprite
  import Fade
  import opened Channel

  /** The delays the `random` slot is armed with by `n` successive firings of
      the random timer (each firing plays one instance; ids are `sound`). */
  function RandomDelays(st: State, sound: SoundId, host: Host, n: nat): (r: seq<Value>)
    requires st.schedule.Some? && |st.schedule.value.gaps| >= 1
    ensures |r| == n
    decreases n
  {
    if n == 0 then []
    else
      var fired := OnRandomTimer(st, sound, host);
      [fired.actions[0].delay] + RandomDelays(fired.ch, sound, host, n - 1)
  }

  /** One firing of the random timer, as `RandomDelays` sees it. */
  lemma FireOnce(st: State, sound: SoundId, host: Host, n: nat)
    requires st.schedule.Some? && |st.schedule.value.gaps| >= 1 && n > 0
    ensures var next := RandomSchedule.Advance(st.schedule.value);
            var fired := OnRandomTimer(st, sound, host);
            && fired.ch.schedule == Some(next.1)
            && RandomDelays(st, sound, host, n) == [Num(next.0)] + RandomDelays(fired.ch, sound, host, n - 1)
  {
  }

  /** Delays as the numbers handed to `setTimeout`. */
  function Nums(xs: seq<int>): (r: seq<Value>)
    ensures |r| == |xs|
    ensures forall j :: 0 <= j < |xs| ==> r[j] == Num(xs[j])
  {
    if xs == [] then [] else [Num(xs[0])] + Nums(xs[1..])
  }

  lemma {:induction false} RandomDelaysFollowSchedule(st: State, sound: SoundId, host: Host, n: nat)
    requires st.schedule.Some? && |st.schedule.value.gaps| >= 1
    ensures RandomDelays(st, sound, host, n) == Nums(RandomSchedule.Run(st.schedule.value, n))
    decreases n
  {
    if n > 0 {
      var s := st.schedule.value;
      var next := RandomSchedule.Advance(s);
      var fired := OnRandomTimer(st, sound, host);
      FireOnce(st, sound, host, n);
      RandomDelaysFollowSchedule(fired.ch, sound, host, n - 1);
      var run := RandomSchedule.Run(s, n);
      assert run == [next.0] + RandomSchedule.Run(next.1, n - 1);
      assert Nums(run) == [Num(next.0)] + Nums(RandomSchedule.Run(next.1, n - 1));
    }
  }

  /** From a cursor at index 0, the `j`-th firing arms gap `j mod count`. */
  lemma DelaysFromStart(ch: State, sound: SoundId, host: Host, n: nat)
    requires ch.schedule.Some? && RandomSchedule.WellFormed(ch.schedule.value)
    requires ch.schedule.value.index == Some(0)
    ensures forall j :: 0 <= j < n ==>
              RandomDelays(ch, sound, host, n)[j] == Num(ch.schedule.value.gaps[j % |ch.schedule.value.gaps|])
  {
    var armed := ch.schedule.value;
    RandomDelaysFollowSchedule(ch, sound, host, n);
    RandomSchedule.RunFromStart(armed, n);
  }

  /** Random mode after `play`: the first timer waits the initial delay, and
      the `j`-th firing after it re-arms with gap `j mod count`, so the
      delays cycle with period `randomCount`. */
  lemma RandomModeCycles(st: State, u: seq<real>, sound: SoundId, host: Host, n: nat)
    requires st.random && DrawsFor(st, u)
    ensures var p := Play(st, u);
            var s := RandomSchedule.Generate(st.randomInterval, u);
            && p.actions[1].delay == Num(s.first)
            && p.ch.schedule.Some? && |p.ch.schedule.value.gaps| >= 1
            && forall j :: 0 <= j < n ==>
                 RandomDelays(p.ch, sound, host, n)[j] == Num(s.gaps[j % st.randomCount])
  {
    var p := Play(st, u);
    var s := RandomSchedule.Generate(st.randomInterval, u);
    assert p.ch.schedule == Some(s.(index := Some(0)));
    DelaysFromStart(p.ch, sound, host, n);
  }

  /** `stop` cancels only what the registry holds: the `offset` timer `play`
      sets in looped and crossfade mode has no slot, so it survives `stop`. */
  lemma StopMissesOffsetTimer(st: State, u: seq<real>)
    requires Valid(st) && !st.random
    ensures var p := Play(st, u);
            && p.actions[0].SetTimer? && p.actions[0].handle == st.nextHandle
            && ClearTimer(st.nextHandle) !in Stop(p.ch).actions
  {
    var p := Play(st, u);
    assert st.nextHandle !in p.ch.timeouts.Values;
  }

  /** Arming the `fadeOut` slot twice overwrites the first handle without
      cancelling it, so a later `stop` does not cancel it either. */
  lemma RearmLosesHandle(st: State, sound: SoundId, durationMs: int)
    requires Valid(st)
    requires Gt(Fade.FadeOutStart(st.fadeOut, st.playFor, durationMs, 0), 0)
    ensures var first := EndFade(st, sound, durationMs, 0);
            var second := EndFade(first.ch, sound, durationMs, 0);
            && SetTimer(st.nextHandle, first.actions[0].delay, FadeOutFire(sound)) in first.actions
            && ClearTimer(st.nextHandle) !in first.actions + second.actions
            && ClearTimer(st.nextHandle) !in Stop(second.ch).actions
  {
    var first := EndFade(st, sound, durationMs, 0);
    var second := EndFade(first.ch, sound, durationMs, 0);
    assert second.ch.timeouts == first.ch.timeouts[FadeOut := first.ch.nextHandle];
    assert st.nextHandle !in second.ch.timeouts.Values;
  }

  /** With numeric settings, the fade-out timer waits until `playFor - fadeOut`
      and then fades over `fadeOut`: the instance falls silent exactly at the
      end of its play length. */
  lemma FadeOutEndsAtPlayLength(st: State, sound: SoundId, durationMs: int)
    requires st.fadeOut.Num? && st.playFor.Num? && 0 < st.fadeOut.n < st.playFor.n
    ensures var armed := EndFade(st, sound, durationMs, 0);
            && armed.actions == [SetTimer(st.nextHandle, Num(st.playFor.n - st.fadeOut.n), FadeOutFire(sound))]
            && OnFadeOutTimer(armed.ch, sound).actions == [Fade(sound, Current, Silent, st.fadeOut)]
            && armed.actions[0].delay.n + st.fadeOut.n == st.playFor.n
  {
  }

  /** Looped mode with a positive `pausetime`: the end of an instance pauses
      it and arms the `pausetime` slot; when that timer fires, the channel's
      own `play` arms a fresh `offset` timer first. The `pausetime` slot keeps
      its fired handle until the next `stop`. */
  lemma PauseThenResume(st: State, sound: SoundId, host: Host, u: seq<real>)
    requires !st.random && !st.crossfade && Gt(st.pausetime, 0)
    ensures var ended := OnEnd(st, sound, host);
            var resumed := OnPauseTimer(ended.ch, sound, host, u);
            && ended.actions == [Pause(sound), SetTimer(st.nextHandle, st.pausetime, PauseResume(sound))]
            && resumed.actions[0] == SetTimer(st.nextHandle + 1, st.offset, LoopStart)
            && Pausetime in resumed.ch.timeouts && resumed.ch.timeouts[Pausetime] == st.nextHandle
  {
    var ended := OnEnd(st, sound, host);
    var p := Play(ended.ch, u);
    assert p.ch.timeouts == ended.ch.timeouts;
  }

  /** Running `_updateSprite` again on a channel that is not playing changes
      nothing further. */
  lemma UpdateSpriteIdempotent(st: State, host: Host, u: seq<real>)
    requires !host.playing
    ensures var once := UpdateSprite(st, host, u);
            UpdateSprite(once.ch, host, u) == once
  {
    Sprite.NormaliseIdempotent(st.skipFront, st.playFor, host.durationMs);
  }

  /** `random(true, count, interval)` while playing: every handle registered
      before is cancelled, and afterwards only the new `random` slot is armed,
      with a handle set after the call began. */
  lemma ReconfigureRandomWhilePlaying(st: State, count: int, interval: int, host: Host,
                                      u: seq<real>, replay: seq<real>)
    requires Valid(st) && host.playing && count >= 1
    requires |u| == count && RandomSchedule.Uniform(u)
    requires |replay| == count && RandomSchedule.Uniform(replay)
    ensures var r := SetRandom(st, true, count, interval, host, u, replay);
            && r.ch.timeouts.Keys == {Random}
            && r.ch.timeouts[Random] >= st.nextHandle
            && (forall h :: h in st.timeouts.Values ==> ClearTimer(h) in r.actions)
            && r.actions[|r.actions| - 2] == Loop(false)
  {
    var st1 := st.(random := true, randomCount := count, randomInterval := interval);
    var st2 := Regenerate(st1, u);
    var stopped := Stop(st2);
    var played := Play(stopped.ch, replay);
    assert SetRandom(st, true, count, interval, host, u, replay) == Then(stopped, played);
  }

  /** Trimming a 10-second source: `playFor(true)` and an over-long
      `playFor` both give 10000, `skipFront(true)` gives 0 and a negative
      `skipFront` is kept as it is. */
  lemma TrimExamples(st: State, u: seq<real>)
    ensures var host := Host(10000, false);
            && SetPlayFor(st, Bool(true), host, u).ch.playFor == Num(10000)
            && SetPlayFor(st, Num(10500), host, u).ch.playFor == Num(10000)
            && SetSkipFront(st, Bool(true), host, u).ch.skipFront == Num(0)
            && SetSkipFront(st, Num(-5), host, u).ch.skipFront == Num(-5)
  {
  }
}
