/** The band sampler of the line-crossing counter: the tick clock, the external
    detector as seen during one update, and the scan of the six bands beside the
    line.  Slot k of the 7-slot timestamp vector holds band offset k - 3; slot 3
    is the line itself and is never scanned. */
module BandSampler {

  /** The source's `uint8_t` and `uint16_t` fields.  Arithmetic on them is done
      in `int`, as C++ promotes both to `int` before `-`, `*` and comparisons. */
  type U8 = x: int | 0 <= x < 0x100
  type U16 = x: int | 0 <= x < 0x1_0000

  /** The clock never shows more than this value; past it, it wraps to 1. */
  const TickLimit: int := 65000

  /** The motion detector's state during one update: the grid size and its
      foreground predicate, fixed for the whole scan. */
  datatype Detector = Detector(width: U16, height: U16, isForeground: (int, int) -> bool)

  /** Everything one band scan depends on: the detector, the resolved line
      column `x`, the row window [below, above), the tunables and the clock value
      of the current tick (already advanced). */
  datatype Sampling = Sampling(d: Detector, x: U16, below: U16, above: U16, lag: U8, sparsity: U8, t: int)

  /** A line position given in pixels (>= 1) is divided by 8 to reach the
      detector's grid; a grid column below 1 is exactly a pixel position below 8. */
  function PixelToCell(px: nat): (cell: nat)
    ensures cell < 1 <==> px < 8
    ensures 8 * cell <= px < 8 * cell + 8
  {
    px / 8
  }

  /** The clock after one successful update. */
  function NextTick(t: U16): (r: U16)
    requires t <= TickLimit
    ensures 1 <= r <= TickLimit
    ensures r == t + 1 || (t == TickLimit && r == 1)
    ensures r < t ==> t == TickLimit
  {
    if t + 1 > TickLimit then 1 else t + 1
  }

  /** Column guard of the scan: a column is sampled when it lies in [0, width]
      (the upper bound is inclusive). */
  predicate InFrame(col: int, d: Detector)
  {
    0 <= col <= d.width
  }

  /** Some row of the window [below, above) is foreground in column `col`. */
  predicate ColumnHit(d: Detector, col: int, below: int, above: int)
  {
    exists y :: below <= y < above && d.isForeground(col, y)
  }

  /** Some in-frame column of [from, stop) has a foreground row in the window. */
  predicate AnyHit(from: int, stop: int, c: Sampling)
  {
    exists col :: from <= col < stop && InFrame(col, c.d) && ColumnHit(c.d, col, c.below, c.above)
  }

  /** First column of band `i`: the band spans `sparsity` columns starting at
      `x + i * sparsity`. */
  function BandOrigin(i: int, c: Sampling): int
  {
    c.x + i * c.sparsity
  }

  /** The band has foreground somewhere: in one of its in-frame columns, in some
      row of the window. */
  predicate BandHasForeground(i: int, c: Sampling)
  {
    AnyHit(BandOrigin(i, c), BandOrigin(i, c) + c.sparsity, c)
  }

  /** Slot value after scanning columns from..stop-1 in order, starting from
      slot value `v`: an out-of-frame column is skipped; an in-frame column with a
      foreground row stamps the slot with the tick; after each in-frame column
      the scan stops as soon as the slot is non-zero. */
  function ScanColumns(v: int, from: int, stop: int, c: Sampling): int
    decreases stop - from
  {
    if from >= stop then v
    else if !InFrame(from, c.d) then ScanColumns(v, from + 1, stop, c)
    else
      var v' := if ColumnHit(c.d, from, c.below, c.above) then c.t else v;
      if v' != 0 then v' else ScanColumns(v', from + 1, stop, c)
  }

  /** Slot value of band `i` after the update: a slot already stamped within
      `lag` ticks (`v >= t - lag`, in signed arithmetic) is not rescanned. */
  function ScanBand(v: int, i: int, c: Sampling): int
  {
    if v >= c.t - c.lag then v
    else ScanColumns(v, BandOrigin(i, c), BandOrigin(i, c) + c.sparsity, c)
  }

  /** The whole timestamp vector after the update's scan. */
  function Scanned(m: seq<int>, c: Sampling): (r: seq<int>)
    requires |m| == 7
    ensures |r| == 7
  {
    seq(7, k requires 0 <= k < 7 => if k == 3 then m[k] else ScanBand(m[k], k - 3, c))
  }

  /** The row loop of one column: reports whether the column has a foreground
      row in [below, above), stopping at the first one. */
  method ColumnHasForeground(d: Detector, col: int, below: int, above: int) returns (hit: bool)
    ensures hit <==> ColumnHit(d, col, below, above)
  {
    var y := below;
    while y < above
      invariant forall z :: below <= z < y ==> !d.isForeground(col, z)
    {
      if d.isForeground(col, y) {
        return true;
      }
      y := y + 1;
    }
    return false;
  }

  /** The sub-column loop of band `i`, starting from slot value `v`. */
  method SampleColumns(v: int, i: int, c: Sampling) returns (r: int)
    ensures r == ScanColumns(v, BandOrigin(i, c), BandOrigin(i, c) + c.sparsity, c)
  {
    ghost var origin, stop := BandOrigin(i, c), BandOrigin(i, c) + c.sparsity;
    r := v;
    for j := 0 to c.sparsity
      invariant ScanColumns(r, origin + j, stop, c) == ScanColumns(v, origin, stop, c)
    {
      var dx := i * c.sparsity + j;
      if dx + c.x < 0 || dx + c.x > c.d.width {
        continue;
      }
      var hit := ColumnHasForeground(c.d, dx + c.x, c.below, c.above);
      if hit {
        r := c.t;
      }
      if r != 0 {
        break;
      }
    }
  }

  /** A scan leaves the slot alone or stamps it with the tick, and stamps it
      only when some in-frame column of the scanned range has foreground. */
  lemma {:induction false} ScanColumnsStampsOnHit(v: int, from: int, stop: int, c: Sampling)
    ensures ScanColumns(v, from, stop, c) == v || ScanColumns(v, from, stop, c) == c.t
    ensures ScanColumns(v, from, stop, c) != v ==> AnyHit(from, stop, c)
    decreases stop - from
  {
    if from < stop {
      var v' := if ColumnHit(c.d, from, c.below, c.above) then c.t else v;
      if !InFrame(from, c.d) {
        ScanColumnsStampsOnHit(v, from + 1, stop, c);
        if ScanColumns(v, from + 1, stop, c) != v {
          AnyHitWiden(from + 1, from, stop, c);
        }
      } else if v' == 0 {
        ScanColumnsStampsOnHit(v', from + 1, stop, c);
        if ScanColumns(v', from + 1, stop, c) != v' {
          AnyHitWiden(from + 1, from, stop, c);
        }
      }
    }
  }

  /** Hits in a range are hits in any range that contains it. */
  lemma AnyHitWiden(from: int, from': int, stop: int, c: Sampling)
    requires from' <= from
    requires AnyHit(from, stop, c)
    ensures AnyHit(from', stop, c)
  {
  }

  /** An empty slot scanned at a non-zero tick is stamped exactly when some
      in-frame column of the range has foreground: first-hit search finds a hit
      if there is one. */
  lemma {:induction false} ScanColumnsEmpty(from: int, stop: int, c: Sampling)
    requires c.t != 0
    ensures ScanColumns(0, from, stop, c) == if AnyHit(from, stop, c) then c.t else 0
    decreases stop - from
  {
    if from < stop {
      ScanColumnsEmpty(from + 1, stop, c);
      if AnyHit(from, stop, c) && !AnyHit(from + 1, stop, c) {
        var col :| from <= col < stop && InFrame(col, c.d) && ColumnHit(c.d, col, c.below, c.above);
        assert col == from;
      }
    }
  }

  /** A slot holding an old non-zero stamp stops after the first in-frame
      column of the range: it is restamped exactly when that column has
      foreground, and is left alone when no column of the range is in frame. */
  lemma {:induction false} ScanColumnsStale(v: int, from: int, stop: int, c: Sampling)
    requires v != 0 && c.t != 0
    ensures var first := if from < 0 then 0 else from;
      ScanColumns(v, from, stop, c)
      == if first < stop && first <= c.d.width && ColumnHit(c.d, first, c.below, c.above) then c.t else v
    decreases stop - from
  {
    if from < stop && !InFrame(from, c.d) {
      ScanColumnsStale(v, from + 1, stop, c);
    }
  }

  /** What a successful update does to the timestamp vector: every slot keeps its
      value or takes the new tick; slot 3 never changes; a slot stamped within
      `lag` ticks is not rescanned; a slot changes only if its band shows
      foreground; and an empty slot is stamped exactly when its band shows
      foreground and the clock is past `lag`. */
  lemma ScannedSlots(m: seq<int>, c: Sampling)
    requires |m| == 7 && c.t != 0
    ensures forall k :: 0 <= k < 7 ==> Scanned(m, c)[k] == m[k] || Scanned(m, c)[k] == c.t
    ensures Scanned(m, c)[3] == m[3]
    ensures forall k :: 0 <= k < 7 && m[k] >= c.t - c.lag ==> Scanned(m, c)[k] == m[k]
    ensures forall k :: 0 <= k < 7 && Scanned(m, c)[k] != m[k] ==> BandHasForeground(k - 3, c)
    ensures forall k :: 0 <= k < 7 && k != 3 && m[k] == 0 ==>
      Scanned(m, c)[k] == if c.t > c.lag && BandHasForeground(k - 3, c) then c.t else 0
  {
    forall k | 0 <= k < 7 && k != 3
      ensures Scanned(m, c)[k] == m[k] || Scanned(m, c)[k] == c.t
      ensures Scanned(m, c)[k] != m[k] ==> BandHasForeground(k - 3, c)
      ensures m[k] == 0 ==>
        Scanned(m, c)[k] == if c.t > c.lag && BandHasForeground(k - 3, c) then c.t else 0
    {
      var origin := BandOrigin(k - 3, c);
      ScanColumnsStampsOnHit(m[k], origin, origin + c.sparsity, c);
      ScanColumnsEmpty(origin, origin + c.sparsity, c);
    }
  }

  /** The timestamp vector after a run of successful updates, one per detector
      frame, with the geometry and tunables held fixed. */
  function Run(m: seq<int>, t: U16, x: U16, below: U16, above: U16, lag: U8, sparsity: U8,
               frames: seq<Detector>): (r: seq<int>)
    requires |m| == 7 && t <= TickLimit
    ensures |r| == 7
    decreases |frames|
  {
    if frames == [] then m
    else
      var t' := NextTick(t);
      Run(Scanned(m, Sampling(frames[0], x, below, above, lag, sparsity, t')), t',
          x, below, above, lag, sparsity, frames[1..])
  }

  /** Warm-up: starting from empty slots, no band is stamped during the first
      `lag` ticks, whatever the detector sees, because an empty slot satisfies
      `0 >= t - lag` and is skipped. */
  lemma {:induction false} WarmupLeavesSlotsEmpty(m: seq<int>, t: U16, x: U16, below: U16, above: U16,
                                                  lag: U8, sparsity: U8, frames: seq<Detector>)
    requires |m| == 7 && forall k :: 0 <= k < 7 ==> m[k] == 0
    requires t + |frames| <= lag
    ensures Run(m, t, x, below, above, lag, sparsity, frames) == m
    decreases |frames|
  {
    if frames != [] {
      var t' := NextTick(t);
      var c := Sampling(frames[0], x, below, above, lag, sparsity, t');
      ScannedSlots(m, c);
      assert Scanned(m, c) == m;
      WarmupLeavesSlotsEmpty(m, t', x, below, above, lag, sparsity, frames[1..]);
    }
  }

  /** Across the clock wrap: a band stamped at `65000 - lag` or later satisfies
      `v >= t - lag` for every clock value the counter can show, so it is never
      rescanned again, whatever the detector sees. */
  lemma {:induction false} LateStampIsFrozen(m: seq<int>, t: U16, x: U16, below: U16, above: U16,
                                             lag: U8, sparsity: U8, frames: seq<Detector>, k: int)
    requires |m| == 7 && t <= TickLimit && 0 <= k < 7
    requires m[k] >= TickLimit - lag
    ensures Run(m, t, x, below, above, lag, sparsity, frames)[k] == m[k]
    decreases |frames|
  {
    if frames != [] {
      var t' := NextTick(t);
      var c := Sampling(frames[0], x, below, above, lag, sparsity, t');
      ScannedSlots(m, c);
      LateStampIsFrozen(Scanned(m, c), t', x, below, above, lag, sparsity, frames[1..], k);
    }
  }
}
