/** The sprite regions a channel registers with Howler, and the
    normalisation of the trim fields that precedes them. */
module Sprite {

  import opened Optional
  import opened JsValue

  /** `[start, length, loop]`; the whole-source region has no loop flag. */
  datatype Region = Region(start: Value, length: Value, loop: Option<bool>)

  type SpriteMap = map<string, Region>

  const DefaultName: string := "__default"
  const LoopedName: string := "looped"
  const OnceName: string := "once"

  /** `sprite(m)`: the caller's regions plus a whole-source `__default`,
      which replaces any `__default` the caller passed. */
  function WithDefault(m: SpriteMap, durationMs: int): (r: SpriteMap)
    ensures r.Keys == m.Keys + {DefaultName}
    ensures r[DefaultName] == Region(Num(0), Num(durationMs), None)
    ensures forall k :: k in m && k != DefaultName ==> r[k] == m[k]
  {
    m[DefaultName := Region(Num(0), Num(durationMs), None)]
  }

  /** The `playFor(time)` setter's value: a boolean selects the whole
      source, anything else goes through `Math.min(time, durationMs)`. */
  function CapPlayFor(time: Value, durationMs: int): (r: Value)
    ensures time.Bool? ==> r == Num(durationMs)
    ensures time.Num? ==> r == Num(if time.n < durationMs then time.n else durationMs)
    ensures time == Undefined || time == NaN ==> r == NaN
  {
    if time.Bool? then Num(durationMs) else MinWith(time, durationMs)
  }

  /** The `skipFront(time)` setter's value: a boolean resets to 0, anything
      else goes through `Math.min(time, durationMs)`; nothing raises a
      negative number. */
  function CapSkipFront(time: Value, durationMs: int): (r: Value)
    ensures time.Bool? ==> r == Num(0)
    ensures time.Num? ==> r == Num(if time.n < durationMs then time.n else durationMs)
    ensures time == Undefined || time == NaN ==> r == NaN
  {
    if time.Bool? then Num(0) else MinWith(time, durationMs)
  }

  /** `_updateSprite` on `_skipFront`: anything but a number becomes 0;
      every number, negative ones included, is kept. */
  function NormalSkipFront(v: Value): (r: Value)
    ensures r.Num?
    ensures v.Num? ==> r == v
    ensures !v.Num? ==> r == Num(0)
  {
    if v == Undefined || v.Bool? || IsNaN(v) then Num(0) else v
  }

  /** `_updateSprite` on `_playFor`: undefined, non-positive or NaN becomes the
      rest of the source after the skipped front; a positive number, or
      `true`, is kept. */
  function NormalPlayFor(v: Value, skipFront: int, durationMs: int): (r: Value)
    ensures v.Num? && v.n > 0 ==> r == v
    ensures v == Bool(true) ==> r == v
    ensures v == Undefined || v == NaN || v == Bool(false) || (v.Num? && v.n <= 0) ==>
              r == Num(durationMs - skipFront)
    ensures r.Num? || r == Bool(true)
  {
    if v == Undefined || Le(v, 0) || IsNaN(v) then Num(durationMs - skipFront) else v
  }

  /** `_playFor` after the `playFor(time)` setter and the `_updateSprite` it runs. */
  function TrimmedPlayFor(time: Value, skipFront: Value, durationMs: int): (r: Value)
    ensures time.Bool? && durationMs > 0 ==> r == Num(durationMs)
    ensures time.Num? && 0 < time.n <= durationMs ==> r == time
    ensures time.Num? && time.n > durationMs > 0 ==> r == Num(durationMs)
    ensures durationMs <= 0 && (time.Bool? || (time.Num? && time.n > 0)) ==>
              r == Num(durationMs - NormalSkipFront(skipFront).n)
    ensures time == Undefined || time == NaN || (time.Num? && time.n <= 0) ==>
              r == Num(durationMs - NormalSkipFront(skipFront).n)
    ensures r.Num?
  {
    NormalPlayFor(CapPlayFor(time, durationMs), NormalSkipFront(skipFront).n, durationMs)
  }

  /** `_skipFront` after the `skipFront(time)` setter and the `_updateSprite` it runs. */
  function TrimmedSkipFront(time: Value, durationMs: int): (r: Value)
    ensures time.Bool? ==> r == Num(0)
    ensures time.Num? ==> r == Num(if time.n < durationMs then time.n else durationMs)
    ensures time == Undefined || time == NaN ==> r == Num(0)
  {
    NormalSkipFront(CapSkipFront(time, durationMs))
  }

  /** The regions `_updateSprite` registers: `looped` and `once` both cover
      the trimmed part of the source with the loop flag set. */
  function TrimRegions(skipFront: Value, playFor: Value): (r: SpriteMap)
    ensures r.Keys == {LoopedName, OnceName}
    ensures r[LoopedName] == r[OnceName] == Region(skipFront, playFor, Some(true))
  {
    map[LoopedName := Region(skipFront, playFor, Some(true)),
        OnceName := Region(skipFront, playFor, Some(true))]
  }

  /** Normalising twice changes nothing further. */
  lemma NormaliseIdempotent(skipFront: Value, playFor: Value, durationMs: int)
    ensures var sf := NormalSkipFront(skipFront);
            var pf := NormalPlayFor(playFor, sf.n, durationMs);
            NormalSkipFront(sf) == sf && NormalPlayFor(pf, sf.n, durationMs) == pf
  {
  }
}
