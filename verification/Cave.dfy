/** Four-connected regions of the tile map, as a graph on cell numbers. */
module CaveGraph {

  const MAP_W := 96
  const MAP_H := 64
  const CELLS := MAP_W * MAP_H

  const T_WALL: Tile := 0
  const T_FLOOR: Tile := 1
  const T_TREASURE: Tile := 3

  type Tile = x: int | 0 <= x < 0x100

  predicate Inner(x: int, y: int) {
    1 <= x < MAP_W - 1 && 1 <= y < MAP_H - 1
  }

  predicate Interior(i: int) {
    0 <= i < CELLS && Inner(i % MAP_W, i / MAP_W)
  }

  /** A cell the fill may enter: inside the border and not wall. */
  predicate Open(t: seq<Tile>, i: int)
    requires |t| == CELLS
  {
    Interior(i) && t[i] != T_WALL
  }

  predicate Adjacent(i: int, j: int) {
    j == i - MAP_W || j == i + 1 || j == i + MAP_W || j == i - 1
  }

  /** A walk over open cells, each next to the one before. */
  predicate Path(t: seq<Tile>, p: seq<int>)
    requires |t| == CELLS
  {
    && (forall k :: 0 <= k < |p| ==> Open(t, p[k]))
    && (forall k :: 0 < k < |p| ==> Adjacent(p[k - 1], p[k]))
  }

  predicate PathFromTo(t: seq<Tile>, p: seq<int>, a: int, b: int)
    requires |t| == CELLS
  {
    p != [] && p[0] == a && p[|p| - 1] == b && Path(t, p)
  }

  ghost predicate Reach(t: seq<Tile>, a: int, b: int)
    requires |t| == CELLS
  {
    exists p :: PathFromTo(t, p, a, b)
  }

  /** The region of cell `a`: everything a walk from it can reach. */
  ghost function Region(t: seq<Tile>, a: int): set<int>
    requires |t| == CELLS
  {
    set b | 0 <= b < CELLS && Reach(t, a, b)
  }

  /** No open cell outside `s` is next to one inside. */
  ghost predicate Closed(t: seq<Tile>, s: set<int>)
    requires |t| == CELLS
  {
    forall i, j :: i in s && Adjacent(i, j) && Open(t, j) ==> j in s
  }

  lemma ReachSelf(t: seq<Tile>, a: int)
    requires |t| == CELLS && Open(t, a)
    ensures Reach(t, a, a)
  {
    assert PathFromTo(t, [a], a, a);
  }

  lemma ReachStep(t: seq<Tile>, a: int, b: int, c: int)
    requires |t| == CELLS && Reach(t, a, b) && Adjacent(b, c) && Open(t, c)
    ensures Reach(t, a, c)
  {
    var p :| PathFromTo(t, p, a, b);
    assert PathFromTo(t, p + [c], a, c);
  }

  lemma ReachOpen(t: seq<Tile>, a: int, b: int)
    requires |t| == CELLS && Reach(t, a, b)
    ensures Open(t, a) && Open(t, b)
  {
    var p :| PathFromTo(t, p, a, b);
  }

  lemma ReachBack(t: seq<Tile>, a: int, b: int)
    requires |t| == CELLS && Reach(t, a, b)
    ensures Reach(t, b, a)
  {
    var p :| PathFromTo(t, p, a, b);
    var q := seq(|p|, k requires 0 <= k < |p| => p[|p| - 1 - k]);
    assert PathFromTo(t, q, b, a);
  }

  lemma ReachThrough(t: seq<Tile>, a: int, b: int, c: int)
    requires |t| == CELLS && Reach(t, a, b) && Reach(t, b, c)
    ensures Reach(t, a, c)
  {
    var p :| PathFromTo(t, p, a, b);
    var q :| PathFromTo(t, q, b, c);
    assert PathFromTo(t, p + q[1..], a, c);
  }

  /** A walk never leaves a closed set. */
  lemma {:induction false} PathStaysIn(t: seq<Tile>, s: set<int>, p: seq<int>)
    requires |t| == CELLS && Closed(t, s) && p != [] && Path(t, p) && p[0] in s
    ensures p[|p| - 1] in s
    decreases |p|
  {
    if |p| > 1 {
      var q := p[..|p| - 1];
      PathStaysIn(t, s, q);
      assert Adjacent(q[|q| - 1], p[|p| - 1]);
    }
  }

  lemma ClosedHoldsRegion(t: seq<Tile>, s: set<int>, a: int)
    requires |t| == CELLS && Closed(t, s) && a in s
    ensures Region(t, a) <= s
  {
    forall b | b in Region(t, a) ensures b in s {
      var p :| PathFromTo(t, p, a, b);
      PathStaysIn(t, s, p);
    }
  }

  /** Every cell of a region has that same region. */
  lemma SameRegion(t: seq<Tile>, a: int, b: int)
    requires |t| == CELLS && Reach(t, a, b)
    ensures Region(t, a) == Region(t, b)
  {
    ReachBack(t, a, b);
    forall c | 0 <= c < CELLS
      ensures c in Region(t, a) <==> c in Region(t, b)
    {
      if Reach(t, a, c) { ReachThrough(t, b, a, c); }
      if Reach(t, b, c) { ReachThrough(t, a, b, c); }
    }
  }

  /** A closed set that misses `a` misses its whole region. */
  lemma ClosedMissesRegion(t: seq<Tile>, s: set<int>, a: int)
    requires |t| == CELLS && Closed(t, s) && a !in s
    ensures Region(t, a) !! s
  {
    forall b | b in Region(t, a) ensures b !in s {
      if b in s {
        ReachBack(t, a, b);
        ReachOpen(t, a, b);
        ClosedHoldsRegion(t, s, b);
      }
    }
  }

  lemma RegionClosed(t: seq<Tile>, a: int)
    requires |t| == CELLS
    ensures Closed(t, Region(t, a))
  {
    forall i, j | i in Region(t, a) && Adjacent(i, j) && Open(t, j) ensures j in Region(t, a) {
      ReachStep(t, a, i, j);
    }
  }

  lemma ClosedUnion(t: seq<Tile>, r: set<int>, s: set<int>)
    requires |t| == CELLS && Closed(t, r) && Closed(t, s)
    ensures Closed(t, r + s)
  {}

  /** A visited set that is closed apart from earlier regions, and only holds cells
      reachable from `a`, is the region of `a`. */
  lemma FloodIsRegion(t: seq<Tile>, before: set<int>, done: set<int>, a: int)
    requires |t| == CELLS && Closed(t, before) && a in done && before !! done
    requires forall i <- done :: 0 <= i < CELLS && Reach(t, a, i)
    requires forall i, j :: i in done && Adjacent(i, j) && Open(t, j) ==> j in before + done
    ensures done == Region(t, a)
  {
    ClosedMissesRegion(t, before, a);
    forall i, j | i in done && Adjacent(i, j) && Open(t, j) ensures j in done {
      ReachStep(t, a, i, j);
    }
    ClosedHoldsRegion(t, done, a);
  }
}
