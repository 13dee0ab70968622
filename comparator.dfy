/** The "happened after" comparator over the timestamp vector and the two
    directional classifiers built on it.  Slot `a + 3` holds band offset `a`. */
module Comparator {

  /** Both bands were stamped and band `a`'s stamp is not older than
      `t - 2 * lag` (signed arithmetic: for small `t` nothing is stale). */
  predicate Comparable(m: seq<int>, t: int, lag: int, a: int, b: int)
    requires |m| == 7 && -3 <= a <= 3 && -3 <= b <= 3
  {
    m[a + 3] != 0 && m[b + 3] != 0 && m[a + 3] >= t - 2 * lag
  }

  /** Score for "band `a` was stamped after band `b`, within `lag` ticks":
      10 for a strictly later stamp, 1 for the same stamp, 0 otherwise. */
  function Gt(m: seq<int>, t: int, lag: nat, a: int, b: int): (r: int)
    requires |m| == 7 && -3 <= a <= 3 && -3 <= b <= 3
    ensures r == 0 || r == 1 || r == 10
    ensures m[a + 3] == 0 || m[b + 3] == 0 || m[a + 3] < t - 2 * lag ==> r == 0
    ensures r == 10 <==> Comparable(m, t, lag, a, b) && m[b + 3] < m[a + 3] <= m[b + 3] + lag
    ensures r == 1 <==> Comparable(m, t, lag, a, b) && m[a + 3] == m[b + 3]
  {
    if m[a + 3] == 0 || m[b + 3] == 0 || m[a + 3] < t - 2 * lag then 0
    else if m[a + 3] > m[b + 3] && m[a + 3] - m[b + 3] <= lag then 10
    else if m[a + 3] >= m[b + 3] && m[a + 3] - m[b + 3] <= lag then 1
    else 0
  }

  /** The comparator is not symmetric: a strict "a after b" gives "b after a"
      no credit at all, and a tie scores 1 in both directions. */
  lemma GtAsymmetric(m: seq<int>, t: int, lag: nat, a: int, b: int)
    requires |m| == 7 && -3 <= a <= 3 && -3 <= b <= 3
    ensures Gt(m, t, lag, a, b) == 10 ==> Gt(m, t, lag, b, a) == 0
    ensures Gt(m, t, lag, a, b) == 1 && m[b + 3] >= t - 2 * lag ==> Gt(m, t, lag, b, a) == 1
  {
  }

  /** The acceptance test of both classifiers. */
  predicate Accepts(sum: int)
  {
    sum > 20 && sum % 10 > 0
  }

  /** Sum of a classifier's four link scores. */
  function Total(links: seq<int>): int
    requires |links| == 4
  {
    links[0] + links[1] + links[2] + links[3]
  }

  /** Number of links of a chain that score `w`. */
  function Count(links: seq<int>, w: int): (n: nat)
    ensures n <= |links|
  {
    if links == [] then 0 else (if links[0] == w then 1 else 0) + Count(links[1..], w)
  }

  /** A chain of four links, each scoring 0, 1 or 10, is accepted exactly when it
      sums to 21, 22 or 31, that is when at least two links are strict and at
      least one is a tie.  A fully strict chain (40) and three strict links with
      no tie (30) are rejected. */
  lemma {:induction false} AcceptedChains(links: seq<int>)
    requires |links| == 4
    requires forall k :: 0 <= k < 4 ==> links[k] == 0 || links[k] == 1 || links[k] == 10
    ensures 0 <= Total(links) <= 40
    ensures Accepts(Total(links)) <==> Total(links) in {21, 22, 31}
    ensures Accepts(Total(links)) <==> Count(links, 10) >= 2 && Count(links, 1) >= 1
  {
    CountOfFour(links, 10);
    CountOfFour(links, 1);
  }

  /** Count over a four-link chain, written out link by link. */
  lemma CountOfFour(s: seq<int>, w: int)
    requires |s| == 4
    ensures Count(s, w) == (if s[0] == w then 1 else 0) + (if s[1] == w then 1 else 0)
                           + (if s[2] == w then 1 else 0) + (if s[3] == w then 1 else 0)
  {
    assert s[1..][1..][1..][1..] == [];
    assert Count(s[1..][1..][1..], w) == if s[3] == w then 1 else 0;
    assert Count(s[1..][1..], w) == (if s[2] == w then 1 else 0) + (if s[3] == w then 1 else 0);
  }

  /** Left-to-right chain: -3 then -2, -2 then -1, -1 then +1, +1 then +2. */
  function LeftToRightLinks(m: seq<int>, t: int, lag: nat): (links: seq<int>)
    requires |m| == 7
    ensures |links| == 4
  {
    [Gt(m, t, lag, -2, -3), Gt(m, t, lag, -1, -2), Gt(m, t, lag, 1, -1), Gt(m, t, lag, 2, 1)]
  }

  /** Right-to-left chain: +3 then +2, +2 then +1, +1 then -1, -1 then -2. */
  function RightToLeftLinks(m: seq<int>, t: int, lag: nat): (links: seq<int>)
    requires |m| == 7
    ensures |links| == 4
  {
    [Gt(m, t, lag, -2, -1), Gt(m, t, lag, -1, 1), Gt(m, t, lag, 1, 2), Gt(m, t, lag, 2, 3)]
  }

  /** The timestamp vector seen in a mirror: band `i` swaps with band `-i`. */
  function Mirror(m: seq<int>): (r: seq<int>)
    requires |m| == 7
    ensures |r| == 7
  {
    seq(7, k requires 0 <= k < 7 => m[6 - k])
  }

  /** The two classifiers are mirror images: the right-to-left chain on a scene
      scores what the left-to-right chain scores on the mirrored scene, so a
      scene is accepted right-to-left exactly when its mirror is accepted
      left-to-right. */
  lemma ClassifiersMirror(m: seq<int>, t: int, lag: nat)
    requires |m| == 7
    ensures Total(RightToLeftLinks(m, t, lag)) == Total(LeftToRightLinks(Mirror(m), t, lag))
    ensures Accepts(Total(RightToLeftLinks(m, t, lag))) <==> Accepts(Total(LeftToRightLinks(Mirror(m), t, lag)))
  {
  }

  /** A passage that stamps bands -3, -2, -1, +1, +2 at strictly increasing
      ticks, each within `lag` of the previous one and none stale, makes every
      left-to-right link strict: the chain sums to 40 and is rejected. */
  lemma StrictPassageRejected(m: seq<int>, t: int, lag: nat)
    requires |m| == 7
    requires 0 < m[0] < m[1] < m[2] < m[4] < m[5]
    requires m[1] <= m[0] + lag && m[2] <= m[1] + lag && m[4] <= m[2] + lag && m[5] <= m[4] + lag
    requires m[1] >= t - 2 * lag
    ensures Total(LeftToRightLinks(m, t, lag)) == 40
    ensures !Accepts(Total(LeftToRightLinks(m, t, lag)))
  {
  }
}
