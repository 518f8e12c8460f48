/** When a channel's fades happen: `_getFadeOutTime` and the fade-in test of
    `_startFade`. */
module Fade {

  import opened Optional
  import opened JsValue

  /** The play length a fade-out is measured against: `_playFor`, or the
      whole source when it is undefined or loosely equal to zero. */
  function PlayLength(playFor: Value, durationMs: int): (r: Value)
    ensures playFor == Undefined || LooselyZero(playFor) ==> r == Num(durationMs)
    ensures playFor != Undefined && !LooselyZero(playFor) ==> r == playFor
  {
    if playFor == Undefined || LooselyZero(playFor) then Num(durationMs) else playFor
  }

  /** `_getFadeOutTime(min)`: 0 when the effective fade-out (`fadeOut`, or
      `min` when it is `false`) is not positive; otherwise the play length
      minus the fade-out, i.e. the moment the fade-out has to start. */
  function FadeOutStart(fadeOut: Value, playFor: Value, durationMs: int, min: int): (r: Value)
    ensures Le(Effective(fadeOut, min), 0) ==> r == Num(0)
    ensures IsNaN(Effective(fadeOut, min)) ==> r == NaN
    ensures Gt(Effective(fadeOut, min), 0) && !IsNaN(PlayLength(playFor, durationMs)) ==>
              r.Num? && r.n + ToNumber(Effective(fadeOut, min)).value
                        == ToNumber(PlayLength(playFor, durationMs)).value
  {
    var fadeOutFor := Effective(fadeOut, min);
    if Le(fadeOutFor, 0) then Num(0)
    else Sub(PlayLength(playFor, durationMs), fadeOutFor)
  }

  /** The effective fade-in of `_startFade(min)`, when it is positive: a
      number fades over itself when positive, `false` falls back to `min`,
      `true` always fades (over `true`, which Howler reads as 1), and
      undefined or NaN never fade. */
  function FadeInLength(fadeIn: Value, min: int): (r: Option<Value>)
    ensures fadeIn.Num? ==> (r.Some? <==> fadeIn.n > 0) && (r.Some? ==> r.value == fadeIn)
    ensures fadeIn == Bool(false) ==> (r.Some? <==> min > 0) && (r.Some? ==> r.value == Num(min))
    ensures fadeIn == Bool(true) ==> r == Some(Bool(true))
    ensures fadeIn == Undefined || fadeIn == NaN ==> r.None?
  {
    var fadeInFor := Effective(fadeIn, min);
    if Gt(fadeInFor, 0) then Some(fadeInFor) else None
  }

  /** With numeric settings a fade-out is scheduled exactly when it is
      positive and shorter than the play length, and it then ends exactly
      when the play length runs out. */
  lemma FadeOutWindow(fadeOut: int, playFor: int, durationMs: int, min: int)
    ensures var p := if playFor == 0 then durationMs else playFor;
            var r := FadeOutStart(Num(fadeOut), Num(playFor), durationMs, min);
            && r.Num?
            && (Gt(r, 0) <==> 0 < fadeOut < p)
            && (Gt(r, 0) ==> r.n + fadeOut == p)
  {
  }

  /** A disabled fade-out falls back to `min`; with the default `min` of 0
      nothing is scheduled. */
  lemma FadeOutDisabled(playFor: Value, durationMs: int)
    ensures FadeOutStart(Bool(false), playFor, durationMs, 0) == Num(0)
  {
  }

  /** `playFor = 5000`, `fadeOut = 1000`: the fade-out starts at 4000. */
  lemma FadeOutExample(durationMs: int)
    ensures FadeOutStart(Num(1000), Num(5000), durationMs, 0) == Num(4000)
  {
  }
}
