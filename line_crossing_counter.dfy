/** The line-crossing counter: a tick clock, seven band timestamps and two
    crossing counters, updated once per frame and queried by two directional
    classifiers.  The external collaborators appear as follows: the motion
    detector is the `Detector` value passed to `Update`; the debounce gate's
    `debounced()` is the `debounced` argument of the classifiers and its
    `touch()` is counted in the ghost field `touches`; the error setter is
    `SetErrorMessage`. */
module LineCrossing {
  import opened BandSampler
  import opened Comparator

  class LineCrossingCounter {
    var lag: U8
    var sparsity: U8
    var t: U16
    var ltrCount: nat
    var rtlCount: nat
    /** Slot `i + 3` holds the tick at which band `i` last showed foreground. */
    const motion: array<U16>
    /** The message last passed to the error setter; "" when cleared. */
    var errorMessage: string
    /** Number of times the debounce gate was touched. */
    ghost var touches: nat

    /** The clock never passes 65000, neither does any stamp, slot 3 (the line)
        stays empty, and the gate is touched once per counted crossing. */
    ghost predicate Valid()
      reads this, motion
    {
      motion.Length == 7 &&
      t <= TickLimit &&
      (forall k :: 0 <= k < 7 ==> motion[k] <= TickLimit) &&
      motion[3] == 0 &&
      touches == ltrCount + rtlCount
    }

    /** Defaults: lag 3, sparsity 4, clock and counters at 0.  The slots are
        taken to start at 0. */
    constructor ()
      ensures Valid() && fresh(motion)
      ensures lag == 3 && sparsity == 4 && t == 0
      ensures ltrCount == 0 && rtlCount == 0 && touches == 0
      ensures motion[..] == [0, 0, 0, 0, 0, 0, 0]
      ensures errorMessage == ""
    {
      lag, sparsity, t := 3, 4, 0;
      ltrCount, rtlCount := 0, 0;
      motion := new U16[7](_ => 0);
      errorMessage := "";
      touches := 0;
    }

    method SetLag(l: U8)
      modifies this`lag
      ensures lag == l
    {
      lag := l;
    }

    method SetSparsity(s: U8)
      modifies this`sparsity
      ensures sparsity == s
    {
      sparsity := s;
    }

    /** The error setter: stores the message and reports success only when
        the message is empty. */
    method SetErrorMessage(msg: string) returns (ok: bool)
      modifies this`errorMessage
      ensures errorMessage == msg
      ensures ok <==> msg == ""
    {
      errorMessage := msg;
      ok := msg == "";
    }

    /** One tick, given the detector's current frame and the resolved line
        column `x` and row window [below, above).  Invalid geometry is reported
        and leaves clock and slots alone; otherwise the clock advances (wrapping
        to 1 past 65000) and the six bands are scanned. */
    method Update(d: Detector, x: U16, above: U16, below: U16) returns (ok: bool)
      requires Valid()
      modifies this, motion
      ensures Valid()
      ensures ok <==> x >= 1 && below < above
      ensures x < 1 ==> errorMessage == "x-coordinate must be >= 8"
      ensures x >= 1 && below >= above ==> errorMessage == "above/below limits mismatch"
      ensures ok ==> errorMessage == ""
      ensures !ok ==> t == old(t) && motion[..] == old(motion[..])
      ensures ok ==> t == NextTick(old(t))
      ensures ok ==> motion[..] == Scanned(old(motion[..]), Sampling(d, x, below, above, lag, sparsity, t))
      ensures lag == old(lag) && sparsity == old(sparsity)
      ensures ltrCount == old(ltrCount) && rtlCount == old(rtlCount) && touches == old(touches)
    {
      if x < 1 {
        ok := SetErrorMessage("x-coordinate must be >= 8");
        return;
      }
      if below >= above {
        ok := SetErrorMessage("above/below limits mismatch");
        return;
      }

      t := t + 1;
      if t > TickLimit {
        t := 1;
      }

      var c := Sampling(d, x, below, above, lag, sparsity, t);
      ghost var m0 := motion[..];
      ScannedSlots(m0, c);
      for i := -3 to 4
        modifies motion
        invariant forall k :: 0 <= k < 7 ==> motion[k] == if k < i + 3 then Scanned(m0, c)[k] else m0[k]
      {
        if i == 0 {
          continue;
        }
        if motion[i + 3] >= t - lag {
          continue;
        }
        var stamp := SampleColumns(motion[i + 3], i, c);
        assert stamp == Scanned(m0, c)[i + 3] by {
          assert motion[i + 3] == m0[i + 3];
          assert Scanned(m0, c)[i + 3] == ScanBand(m0[i + 3], i, c);
        }
        motion[i + 3] := stamp;
      }
      assert motion[..] == Scanned(m0, c);

      ok := SetErrorMessage("");
    }

    /** Reports a left-to-right crossing when the gate is open and the chain
        -3, -2, -1, +1, +2 is accepted; a reported crossing is counted and
        touches the gate.  Nothing else changes. */
    method CrossedFromLeftToRight(debounced: bool) returns (crossed: bool)
      requires Valid()
      modifies this
      ensures Valid()
      ensures crossed <==> debounced && Accepts(Total(LeftToRightLinks(motion[..], t, lag)))
      ensures ltrCount == old(ltrCount) + (if crossed then 1 else 0)
      ensures touches == old(touches) + (if crossed then 1 else 0)
      ensures rtlCount == old(rtlCount) && t == old(t) && lag == old(lag) && sparsity == old(sparsity)
      ensures errorMessage == old(errorMessage) && motion[..] == old(motion[..])
    {
      if !debounced {
        return false;
      }
      var m := motion[..];
      var sum := Gt(m, t, lag, -2, -3) + Gt(m, t, lag, -1, -2) + Gt(m, t, lag, 1, -1) + Gt(m, t, lag, 2, 1);
      if sum > 20 && sum % 10 > 0 {
        ltrCount := ltrCount + 1;
        touches := touches + 1;
        return true;
      }
      return false;
    }

    /** Mirror image of `CrossedFromLeftToRight` over the chain
        +3, +2, +1, -1, -2, counting into the right-to-left counter. */
    method CrossedFromRightToLeft(debounced: bool) returns (crossed: bool)
      requires Valid()
      modifies this
      ensures Valid()
      ensures crossed <==> debounced && Accepts(Total(RightToLeftLinks(motion[..], t, lag)))
      ensures rtlCount == old(rtlCount) + (if crossed then 1 else 0)
      ensures touches == old(touches) + (if crossed then 1 else 0)
      ensures ltrCount == old(ltrCount) && t == old(t) && lag == old(lag) && sparsity == old(sparsity)
      ensures errorMessage == old(errorMessage) && motion[..] == old(motion[..])
    {
      if !debounced {
        return false;
      }
      var m := motion[..];
      var sum := Gt(m, t, lag, -2, -1) + Gt(m, t, lag, -1, 1) + Gt(m, t, lag, 1, 2) + Gt(m, t, lag, 2, 3);
      if sum > 20 && sum % 10 > 0 {
        rtlCount := rtlCount + 1;
        touches := touches + 1;
        return true;
      }
      return false;
    }

    function LeftToRightCount(): nat
      reads this
    {
      ltrCount
    }

    function RightToLeftCount(): nat
      reads this
    {
      rtlCount
    }
  }

  /** After the clock wraps, a left-to-right pattern whose five stamps were all
      taken in the last `lag` ticks before 65000 is never rescanned and never
      goes stale: if it was accepted once, it is accepted again after any run of
      updates, at any clock value. */
  lemma FrozenChainStaysAccepted(m: seq<int>, t: U16, x: U16, below: U16, above: U16,
                                 lag: U8, sparsity: U8, frames: seq<Detector>, t2: U16)
    requires |m| == 7 && t <= TickLimit && t2 <= TickLimit
    requires forall k :: 0 <= k < 6 && k != 3 ==> m[k] >= TickLimit - lag
    requires Accepts(Total(LeftToRightLinks(m, t, lag)))
    ensures Accepts(Total(LeftToRightLinks(Run(m, t, x, below, above, lag, sparsity, frames), t2, lag)))
  {
    var r := Run(m, t, x, below, above, lag, sparsity, frames);
    forall k | 0 <= k < 6 && k != 3
      ensures r[k] == m[k]
    {
      LateStampIsFrozen(m, t, x, below, above, lag, sparsity, frames, k);
    }
    assert LeftToRightLinks(r, t2, lag) == LeftToRightLinks(m, t, lag);
  }

  /** A state satisfying the premise of `FrozenChainStaysAccepted`: stamps
      64997, 64998, 64998, 64999, 65000 on bands -3, -2, -1, +1, +2 with lag 3
      score 10 + 1 + 10 + 10 = 31 and are accepted. */
  lemma FrozenChainExample()
    ensures Total(LeftToRightLinks([64997, 64998, 64998, 0, 64999, 65000, 0], 65000, 3)) == 31
    ensures Accepts(31)
  {
  }
}
