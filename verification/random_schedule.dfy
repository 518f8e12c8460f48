/** The random re-trigger schedule of channel.js: `randomCount` sorted draws in
    `[0, randomInterval)` turned into an initial delay plus a cyclic list of
    gaps, and the cursor that walks that list one timer firing at a time. */
module RandomSchedule {

  import opened Optional

  /** `_randomFirst`, `_randomTimer` and `_randomIndex` of a channel. */
  datatype Schedule = Schedule(first: int, gaps: seq<int>, index: Option<nat>)

  /** Values `Math.random()` can return. */
  predicate Uniform(u: seq<real>)
  {
    forall i :: 0 <= i < |u| ==> 0.0 <= u[i] < 1.0
  }

  predicate Sorted(s: seq<int>)
  {
    forall i, j :: 0 <= i < j < |s| ==> s[i] <= s[j]
  }

  /** A schedule the cursor can walk: at least one gap, index inside it. */
  predicate WellFormed(s: Schedule)
  {
    |s.gaps| >= 1 && (s.index.Some? ==> s.index.value < |s.gaps|)
  }

  function Sum(s: seq<int>): int
  {
    if s == [] then 0 else s[0] + Sum(s[1..])
  }

  lemma MulBelow(x: real, m: real)
    requires 0.0 <= x < 1.0 && m > 0.0
    ensures 0.0 <= x * m < m
  {
    assert (1.0 - x) * m > 0.0;
  }

  /** `Math.floor(Math.random() * max)` for one draw `x`. */
  function Draw(x: real, max: int): (r: int)
    requires 0.0 <= x < 1.0
    ensures max > 0 ==> 0 <= r < max
    ensures max == 0 ==> r == 0
  {
    var m := max as real;
    var y := x * m;
    if max > 0 then
      MulBelow(x, m);
      assert y.Floor as real <= y;
      y.Floor
    else
      y.Floor
  }

  /** The unsorted draws of `_getRandomInts`, one per random number. */
  function Draws(u: seq<real>, max: int): (r: seq<int>)
    requires Uniform(u)
    ensures |r| == |u|
    ensures forall i :: 0 <= i < |r| ==> r[i] == Draw(u[i], max)
  {
    if u == [] then [] else [Draw(u[0], max)] + Draws(u[1..], max)
  }

  /** A value no larger than any element of a sorted list can go in front. */
  lemma ConsSorted(a: int, rest: seq<int>)
    requires Sorted(rest)
    requires forall k :: 0 <= k < |rest| ==> a <= rest[k]
    ensures Sorted([a] + rest)
  {
  }

  /** Every element of a list whose multiset is `m + {x}` is `x` or from `m`. */
  lemma LowerBound(a: int, x: int, tail: seq<int>, rest: seq<int>)
    requires a < x
    requires forall k :: 0 <= k < |tail| ==> a <= tail[k]
    requires multiset(rest) == multiset(tail) + multiset{x}
    ensures forall k :: 0 <= k < |rest| ==> a <= rest[k]
  {
    forall k | 0 <= k < |rest|
      ensures a <= rest[k]
    {
      assert rest[k] in multiset(rest);
      if rest[k] != x {
        assert rest[k] in multiset(tail);
      }
    }
  }

  /** One step of the numeric sort `result.sort((a, b) => a - b)`. */
  function Insert(x: int, s: seq<int>): (r: seq<int>)
    requires Sorted(s)
    ensures Sorted(r)
    ensures multiset(r) == multiset(s) + multiset{x}
  {
    if s == [] then [x]
    else if x <= s[0] then
      ConsSorted(x, s);
      [x] + s
    else
      var tail := s[1..];
      var rest := Insert(x, tail);
      assert s == [s[0]] + tail;
      LowerBound(s[0], x, tail, rest);
      ConsSorted(s[0], rest);
      [s[0]] + rest
  }

  /** Ascending numeric sort. */
  function Sort(s: seq<int>): (r: seq<int>)
    ensures Sorted(r)
    ensures multiset(r) == multiset(s)
  {
    if s == [] then []
    else
      assert s == [s[0]] + s[1..];
      Insert(s[0], Sort(s[1..]))
  }

  /** `_getRandomInts(max, u.Length)` with the random numbers `u` given. */
  function RandomInts(max: int, u: seq<real>): (r: seq<int>)
    requires Uniform(u)
    ensures |r| == |u|
    ensures Sorted(r)
    ensures multiset(r) == multiset(Draws(u, max))
    ensures max > 0 ==> forall i :: 0 <= i < |r| ==> 0 <= r[i] < max
  {
    var d := Draws(u, max);
    var r := Sort(d);
    assert |r| == |multiset(r)| == |multiset(d)|;
    forall i | 0 <= i < |r| && max > 0 ensures 0 <= r[i] < max {
      assert r[i] in multiset(d);
      var j :| 0 <= j < |d| && d[j] == r[i];
    }
    r
  }

  /** Consecutive differences `b[i+1] - b[i]`: the loop of `_generateRandomTimers`. */
  function Gaps(b: seq<int>): (r: seq<int>)
    ensures |r| == if |b| == 0 then 0 else |b| - 1
  {
    if |b| < 2 then [] else [b[1] - b[0]] + Gaps(b[1..])
  }

  /** Running positions starting at `start` and advancing by each gap in turn;
      the inverse of `Gaps`. */
  function Positions(start: int, gaps: seq<int>): (r: seq<int>)
    ensures |r| == |gaps| + 1
    ensures r[0] == start
    decreases gaps
  {
    if gaps == [] then [start] else [start] + Positions(start + gaps[0], gaps[1..])
  }

  lemma {:induction false} GapsElement(b: seq<int>, i: int)
    requires 0 <= i < |b| - 1
    ensures Gaps(b)[i] == b[i + 1] - b[i]
    decreases i
  {
    if i > 0 {
      GapsElement(b[1..], i - 1);
    }
  }

  /** Adding the gaps back up from the first boundary recovers every boundary. */
  lemma {:induction false} PositionsOfGaps(b: seq<int>)
    requires |b| >= 1
    ensures Positions(b[0], Gaps(b)) == b
  {
    if |b| >= 2 {
      PositionsOfGaps(b[1..]);
      assert b == [b[0]] + b[1..];
    }
  }

  /** The gaps between boundaries add up to the distance from the first to the last. */
  lemma {:induction false} GapsTelescope(b: seq<int>)
    requires |b| >= 1
    ensures Sum(Gaps(b)) == b[|b| - 1] - b[0]
  {
    if |b| >= 2 {
      GapsTelescope(b[1..]);
    }
  }

  /** The boundaries `_generateRandomTimers` takes differences of: a virtual 0,
      the sorted draws, and the first draw carried into the next interval. */
  function Boundaries(interval: int, d: seq<int>): (b: seq<int>)
    requires |d| >= 1
    ensures |b| == |d| + 2
  {
    [0] + d + [interval + d[0]]
  }

  /** The schedule built from sorted draws `d`: the first gap becomes the
      initial delay and the remaining `|d|` gaps the cyclic repeat list. */
  function ScheduleOf(interval: int, d: seq<int>): (s: Schedule)
    requires |d| >= 1
    ensures WellFormed(s) && s.index.None?
    ensures |s.gaps| == |d|
    ensures s.first == d[0]
    ensures s.gaps[|d| - 1] == interval + d[0] - d[|d| - 1]
    ensures forall i :: 0 <= i < |d| - 1 ==> s.gaps[i] == d[i + 1] - d[i]
  {
    var b := Boundaries(interval, d);
    var g := Gaps(b);
    GapsElement(b, 0);
    GapsElement(b, |d|);
    forall i | 0 <= i < |d| - 1
      ensures g[i + 1] == d[i + 1] - d[i]
    {
      GapsElement(b, i + 1);
    }
    Schedule(g[0], g[1..], None)
  }

  /** Sorted draws inside one interval leave no negative gap. */
  lemma ScheduleOfNonNegative(interval: int, d: seq<int>)
    requires |d| >= 1 && Sorted(d)
    requires forall i :: 0 <= i < |d| ==> 0 <= d[i] < interval
    ensures forall i :: 0 <= i < |d| ==> ScheduleOf(interval, d).gaps[i] >= 0
  {
    var s := ScheduleOf(interval, d);
    forall i | 0 <= i < |d|
      ensures s.gaps[i] >= 0
    {
      if i < |d| - 1 {
        assert s.gaps[i] == d[i + 1] - d[i];
      } else {
        assert s.gaps[i] == interval + d[0] - d[|d| - 1];
      }
    }
  }

  /** `_generateRandomTimers`: fresh draws, then the first gap becomes the
      initial delay and the remaining `count` gaps the cyclic repeat list. */
  function Generate(interval: int, u: seq<real>): (s: Schedule)
    requires |u| >= 1 && Uniform(u)
    ensures WellFormed(s) && s.index.None?
    ensures |s.gaps| == |u|
    ensures s.first == RandomInts(interval, u)[0]
    ensures s.gaps[|u| - 1] == interval + RandomInts(interval, u)[0] - RandomInts(interval, u)[|u| - 1]
    ensures forall i :: 0 <= i < |u| - 1 ==>
              s.gaps[i] == RandomInts(interval, u)[i + 1] - RandomInts(interval, u)[i]
    ensures interval > 0 ==> forall i :: 0 <= i < |s.gaps| ==> s.gaps[i] >= 0
  {
    var d := RandomInts(interval, u);
    if interval > 0 then
      ScheduleOfNonNegative(interval, d);
      ScheduleOf(interval, d)
    else
      ScheduleOf(interval, d)
  }

  /** The initial delay and the gaps add up to one interval plus the first draw. */
  lemma GenerateSum(interval: int, u: seq<real>)
    requires |u| >= 1 && Uniform(u)
    ensures Generate(interval, u).first + Sum(Generate(interval, u).gaps)
            == interval + RandomInts(interval, u)[0]
  {
    var d := RandomInts(interval, u);
    var b := Boundaries(interval, d);
    var g := Gaps(b);
    assert Generate(interval, u) == ScheduleOf(interval, d);
    GapsTelescope(b);
    assert g == [g[0]] + g[1..];
  }

  /** Reading the schedule back as positions from time 0 recovers the sorted
      draws, followed by the first draw of the next interval. */
  lemma GenerateInverse(interval: int, u: seq<real>)
    requires |u| >= 1 && Uniform(u)
    ensures var s := Generate(interval, u);
            Positions(s.first, s.gaps)
            == RandomInts(interval, u) + [interval + RandomInts(interval, u)[0]]
  {
    var d := RandomInts(interval, u);
    var b := Boundaries(interval, d);
    var g := Gaps(b);
    assert Generate(interval, u) == ScheduleOf(interval, d);
    PositionsOfGaps(b);
    assert g == [g[0]] + g[1..];
    assert Positions(0, g) == [0] + Positions(g[0], g[1..]);
    assert b == [0] + (d + [interval + d[0]]);
  }

  /** `_setRandomPlayTimer`'s choice of delay and new index. The index read is
      clamped to the last gap, as the source does; an undefined index means the
      first firing, which uses the initial delay and moves to index 0. */
  function Advance(s: Schedule): (r: (int, Schedule))
    requires |s.gaps| >= 1
    ensures WellFormed(r.1)
    ensures r.1.first == s.first && r.1.gaps == s.gaps
    ensures s.index.None? ==> r.0 == s.first && r.1.index == Some(0)
    ensures s.index.Some? && s.index.value < |s.gaps| ==>
              r.0 == s.gaps[s.index.value] && r.1.index == Some((s.index.value + 1) % |s.gaps|)
    ensures s.index.Some? && s.index.value >= |s.gaps| ==>
              r.0 == s.gaps[|s.gaps| - 1] && r.1.index == Some(0)
  {
    var current: int := if s.index.None? then -1
                        else if s.index.value < |s.gaps| - 1 then s.index.value
                        else |s.gaps| - 1;
    var timeout := if s.index.None? then s.first else s.gaps[current];
    (timeout, s.(index := Some((current + 1) % |s.gaps|)))
  }

  /** The delays of `n` successive firings of the random timer. */
  function Run(s: Schedule, n: nat): (r: seq<int>)
    requires |s.gaps| >= 1
    ensures |r| == n
    decreases n
  {
    if n == 0 then [] else [Advance(s).0] + Run(Advance(s).1, n - 1)
  }

  lemma MulSign(d: int, k: int)
    requires k > 0
    ensures d >= 1 ==> d * k >= k
    ensures d <= -1 ==> d * k <= -k
  {
  }

  /** Euclidean remainders are unique: `q * k + r` with `0 <= r < k` leaves `r`. */
  lemma ModUnique(a: int, q: int, r: int, k: int)
    requires k > 0 && 0 <= r < k && a == q * k + r
    ensures a % k == r
  {
    var d := a / k - q;
    assert d * k == r - a % k;
    MulSign(d, k);
  }

  lemma ModShift(a: int, b: int, k: int)
    requires a >= 0 && b >= 0 && k > 0
    ensures (a % k + b) % k == (a + b) % k
  {
    var c := a % k + b;
    var q1 := a / k;
    var q2 := c / k;
    assert a + b == (q1 + q2) * k + c % k;
    ModUnique(a + b, q1 + q2, c % k, k);
  }

  lemma ModMultiple(q: int, x: int, k: int)
    requires k > 0
    ensures (q * k + x) % k == x % k
  {
    assert q * k + x == (q + x / k) * k + x % k;
    ModUnique(q * k + x, q + x / k, x % k, k);
  }

  /** From index `i`, the `j`-th firing uses gap `(i + j) mod count`. */
  lemma {:induction false} RunFrom(s: Schedule, n: nat)
    requires WellFormed(s) && s.index.Some?
    ensures forall j :: 0 <= j < n ==> Run(s, n)[j] == s.gaps[(s.index.value + j) % |s.gaps|]
    decreases n
  {
    if n > 0 {
      var k := |s.gaps|;
      var i := s.index.value;
      var t := Advance(s).1;
      var rest := Run(t, n - 1);
      assert Run(s, n) == [s.gaps[i]] + rest;
      assert t.index == Some((i + 1) % k);
      RunFrom(t, n - 1);
      ModUnique(i, 0, i, k);
      forall j | 1 <= j < n
        ensures Run(s, n)[j] == s.gaps[(i + j) % k]
      {
        assert Run(s, n)[j] == rest[j - 1];
        assert rest[j - 1] == s.gaps[((i + 1) % k + (j - 1)) % k];
        ModShift(i + 1, j - 1, k);
      }
    }
  }

  /** From index 0, the `j`-th firing uses gap `j mod count`. */
  lemma RunFromStart(s: Schedule, n: nat)
    requires WellFormed(s) && s.index == Some(0)
    ensures forall j :: 0 <= j < n ==> Run(s, n)[j] == s.gaps[j % |s.gaps|]
  {
    RunFrom(s, n);
    forall j | 0 <= j < n
      ensures Run(s, n)[j] == s.gaps[j % |s.gaps|]
    {
      assert 0 + j == j;
    }
  }

  /** Firing after a fresh generation: the first delay is the initial one, the
      `j`-th after it is gap `(j - 1) mod count`, so the gaps repeat with period
      `count` and the index never leaves `[0, count)`. */
  lemma {:induction false} RunCycles(s: Schedule, n: nat)
    requires |s.gaps| >= 1 && s.index.None?
    ensures n > 0 ==> Run(s, n)[0] == s.first
    ensures forall j :: 1 <= j < n ==> Run(s, n)[j] == s.gaps[(j - 1) % |s.gaps|]
    ensures forall j :: 1 <= j && j + |s.gaps| < n ==> Run(s, n)[j + |s.gaps|] == Run(s, n)[j]
  {
    if n > 0 {
      var t := Advance(s).1;
      RunFrom(t, n - 1);
      var k := |s.gaps|;
      forall j | 1 <= j && j + k < n
        ensures Run(s, n)[j + k] == Run(s, n)[j]
      {
        ModMultiple(1, j - 1, k);
      }
    }
  }
}
