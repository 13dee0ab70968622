# Line-crossing counter

A model of `LineCrossingCounter` from EloquentEsp32cam. The class counts objects that cross a virtual vertical line in a camera image. On every frame, `update()` advances a tick clock. It then samples six bands beside the line (three on each side) against the motion detector's foreground grid. Each band that shows foreground gets the current tick as its timestamp. Two classifiers, `crossedFromLeftToRight()` and `crossedFromRightToLeft()`, score four "band a was stamped after band b within `lag` ticks" links. They accept a crossing when the sum is above 20 and not a multiple of 10. Each accepted crossing is counted and touches an external debounce gate.

The model has three modules:

- `BandSampler` (`band_sampler.dfy`) covers the clock, the detector as seen during one update, and the band scan. The scan is defined as specification functions (`ScanColumns`, `ScanBand`, `Scanned`). The row loop and the sub-column loop are methods proved against those functions. `Run` chains successful updates.
- `Comparator` (`comparator.dfy`) covers the comparator `gt`, the acceptance threshold, the two link chains and their mirror symmetry.
- `LineCrossing` (`line_crossing_counter.dfy`) holds the class `LineCrossingCounter`. Its fields are those of the source: `lag`, `sparsity`, `t`, the two counters and the 7-slot array `motion`. Its methods change them in place.

Arithmetic follows C++ integer promotion. `t - lag` and `t - 2 * lag` are signed `int`s. While `t <= lag`, an empty slot therefore counts as "recent" and is not scanned. The column guard accepts column `width` itself. After an in-frame sub-column, the sub-column loop stops as soon as the slot is non-zero. So a slot holding an old stamp is checked only at its first in-frame sub-column (`ScanColumnsStale`).

What the model proves about the code as written:

- No band can be stamped during the first `lag` updates after construction, whatever the camera sees (`WarmupLeavesSlotsEmpty`).
- A passage that stamps bands -3, -2, -1, +1, +2 at strictly increasing ticks, each within `lag` of the last, scores 40. It is rejected (`StrictPassageRejected`). Acceptance needs at least two strict links and at least one tie (`AcceptedChains`).
- The clock wraps from 65000 to 1, but old stamps stay in place. A stamp taken at tick `65000 - lag` or later satisfies `v >= t - lag` at every clock value. It is never rescanned (`LateStampIsFrozen`) and never goes stale in `gt`. So an accepted left-to-right pattern stamped just before the wrap is accepted again on every later query (`FrozenChainStaysAccepted`, with a concrete instance in `FrozenChainExample`). The statement "every slot is at most `t`" does not hold across the wrap, and the model does not claim it.

## Model

| member | source | states |
|---|---|---|
| `LineCrossing.LineCrossingCounter.constructor` | src/esp32cam/apps/LineCrossingCounter.h:26-37 | Sets the defaults lag 3, sparsity 4, clock 0 and both counters 0. Slots start at 0 (an assumption). The object invariant holds. |
| `LineCrossing.LineCrossingCounter.SetLag` | src/esp32cam/apps/LineCrossingCounter.h:71-73 | Stores the new lag and changes nothing else. |
| `LineCrossing.LineCrossingCounter.SetSparsity` | src/esp32cam/apps/LineCrossingCounter.h:81-84 | Stores the new sparsity and changes nothing else. |
| `LineCrossing.LineCrossingCounter.Update` | src/esp32cam/apps/LineCrossingCounter.h:90-136 | Fails exactly when `x < 1` or `below >= above`, with the source's message for each case. On failure the clock and all slots are unchanged. On success the error is cleared, the clock is `NextTick` of the old clock and the slots are `Scanned` of the old slots. The counters and the touch count are untouched. The invariant (clock and stamps at most 65000, slot 3 empty) is preserved. |
| `BandSampler.NextTick` | src/esp32cam/apps/LineCrossingCounter.h:103-106 | The clock advances by one, or wraps to 1 after 65000, and stays in [1, 65000]. It only ever goes backwards at the wrap. |
| `BandSampler.PixelToCell` | src/esp32cam/apps/LineCrossingCounter.h:93 | A pixel line position maps to grid column `px / 8`. That column is below 1 exactly when the pixel position is below 8, which matches the error message. |
| `BandSampler.ColumnHasForeground` | src/esp32cam/apps/LineCrossingCounter.h:123-128 | The row loop reports a hit exactly when some row in [below, above) of the column is foreground. |
| `BandSampler.SampleColumns` | src/esp32cam/apps/LineCrossingCounter.h:117-132 | The sub-column loop of one band, with its out-of-frame `continue` and its non-zero `break`, computes `ScanColumns` over the band's columns. |
| `BandSampler.ScanColumnsStampsOnHit` | src/esp32cam/apps/LineCrossingCounter.h:117-132 | A band scan leaves the slot unchanged or sets it to the tick. It changes the slot only if some in-frame column in the range has a foreground row in the window. |
| `BandSampler.ScanColumnsEmpty` | src/esp32cam/apps/LineCrossingCounter.h:117-132 | For an empty slot, the scan stamps the tick if and only if some in-frame column of the band has foreground. |
| `BandSampler.ScanColumnsStale` | src/esp32cam/apps/LineCrossingCounter.h:117-132 | For a slot with an old non-zero stamp, only the first in-frame sub-column is checked. The slot is restamped exactly when that column has foreground. |
| `BandSampler.ScannedSlots` | src/esp32cam/apps/LineCrossingCounter.h:110-133 | After a scan, every slot is unchanged or equals the new tick, and slot 3 never changes. A slot with `v >= t - lag` is not rescanned. A changed slot's band has foreground in some column `0 <= col <= width` and some row in [below, above). An empty slot is stamped exactly when `t > lag` and its band has foreground. |
| `BandSampler.WarmupLeavesSlotsEmpty` | src/esp32cam/apps/LineCrossingCounter.h:114-115 | Starting from empty slots, a run of updates that keeps the clock at or below `lag` leaves every slot empty, whatever the detector reports. |
| `BandSampler.LateStampIsFrozen` | src/esp32cam/apps/LineCrossingCounter.h:103-115 | A slot stamped at `65000 - lag` or later is never rescanned, over any run of updates and across the clock wrap. |
| `Comparator.Gt` | src/esp32cam/apps/LineCrossingCounter.h:236-248 | The score is always 0, 1 or 10. It is 0 if either slot is empty or `a` is older than `t - 2*lag`. It is 10 exactly when both slots are set, `a` is not stale, and `0 < m[a] - m[b] <= lag`. It is 1 exactly when both slots are set, `a` is not stale, and the stamps are equal. |
| `Comparator.GtAsymmetric` | src/esp32cam/apps/LineCrossingCounter.h:240-247 | If `a` is strictly after `b` (score 10), then `b` gets no credit for being after `a`. A tie scores 1 in both directions when both stamps are fresh. |
| `Comparator.AcceptedChains` | src/esp32cam/apps/LineCrossingCounter.h:149 | For four links in {0, 1, 10}, the sum is in [0, 40] and fits the `uint8_t`. It is accepted exactly when it is 21, 22 or 31, that is, when at least two links are strict and at least one is a tie. So 40 and 30 are rejected. |
| `Comparator.ClassifiersMirror` | src/esp32cam/apps/LineCrossingCounter.h:143-176 | The right-to-left chain on a scene scores the same as the left-to-right chain on the mirrored scene (band `i` swapped with band `-i`). The two accept the same scenes up to that mirroring. |
| `Comparator.StrictPassageRejected` | src/esp32cam/apps/LineCrossingCounter.h:147-149 | Stamps on bands -3, -2, -1, +1, +2 that strictly increase, each within `lag` of the last and none stale, make the left-to-right sum 40, and the crossing is rejected. |
| `LineCrossing.LineCrossingCounter.CrossedFromLeftToRight` | src/esp32cam/apps/LineCrossingCounter.h:143-156 | Returns true exactly when the gate is open and the chain -3, -2, -1, +1, +2 is accepted. Then the left-to-right counter and the touch count each grow by one. Otherwise they are unchanged. The other counter, the clock, the slots and the settings never change. |
| `LineCrossing.LineCrossingCounter.CrossedFromRightToLeft` | src/esp32cam/apps/LineCrossingCounter.h:163-176 | The mirror image over the chain +3, +2, +1, -1, -2. Only the right-to-left counter can grow. |
| `LineCrossing.FrozenChainStaysAccepted` | src/esp32cam/apps/LineCrossingCounter.h:103-115 | An accepted left-to-right pattern whose five stamps are all at least `65000 - lag` stays accepted after any run of updates and at any clock value. The scan never rewrites those stamps and `gt` never finds them stale. |
| `LineCrossing.FrozenChainExample` | src/esp32cam/apps/LineCrossingCounter.h:147-149 | The stamps 64997, 64998, 64998, 64999, 65000 with lag 3 score 31 and are accepted, so the premise of the frozen-chain lemma can be met. |

## Left out

- The setters `lineAt`, `above` and `below` are left out. They only store `float` values. Resolving them to grid coordinates (lines 93-95) mixes float multiplication with truncation to `uint16_t`, including a possible wrap of `height - ...`. `Update` instead receives the resolved `x`, `above` and `below` as `uint16_t` values. `PixelToCell` models only the pixel branch of the `x` resolution.
- The motion detector's internals are left out. During one update the detector is a value with a width, a height and a foreground predicate on any pair of integers. The model does not say whether column `width` lies inside the detector's grid.
- The debounce gate's policy is left out. `debounced()` is an argument of the classifiers, and `touch()` is counted in the ghost field `touches`.
- The error setter's behaviour is an assumption, because its trait is not part of this model. It stores the message and returns true exactly for the empty message.
- The initial slot values are an assumption. The C++ constructor leaves `_motion` uninitialised, and the model starts every slot at 0.
- The counters are unbounded: the `uint16_t` wrap of `_ltrCount` and `_rtlCount` is not modelled, and nothing in the source handles it.
- `debug()` is left out because it only formats the seven slots into a string.
- The getters `LeftToRightCount` and `RightToLeftCount` are plain field reads, so they carry no contract.
