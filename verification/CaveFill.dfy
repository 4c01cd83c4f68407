/** keep_largest_region: an explicit-stack flood fill finds every region of the map,
    and everything outside a largest one becomes wall. */
module CaveFill {
  import opened CaveGraph
  import opened Finite

  /** The eight directions, clockwise from north; the fill uses the even ones. */
  const DX: seq<int> := [0, 1, 1, 1, 0, -1, -1, -1]
  const DY: seq<int> := [-1, -1, 0, 1, 1, 1, 0, -1]

  predicate InMap(s: set<int>) {
    forall i <- s :: 0 <= i < CELLS
  }

  /** `seen` marks exactly the cells of `s`. */
  ghost predicate Marks(seen: array<bool>, s: set<int>)
    reads seen
  {
    && seen.Length == CELLS && InMap(s)
    && forall i :: 0 <= i < CELLS ==> (seen[i] <==> i in s)
  }

  /** While an unmarked cell remains, the stack of marked cells has a free place. */
  lemma StackHasRoom(s: seq<int>, marked: set<int>, i: int)
    requires Distinct(s) && Elements(s) <= marked && InMap(marked) && 0 <= i < CELLS && i !in marked
    ensures |s| < CELLS
  {
    var all := Below(CELLS);
    DistinctSize(s);
    Subset(Elements(s), all - {i});
    assert |all - {i}| == CELLS - 1;
  }

  lemma NeighbourCell(cur: int, d: int)
    requires Interior(cur) && d in {0, 2, 4, 6}
    ensures var nx, ny := cur % MAP_W + DX[d], cur / MAP_W + DY[d];
            var ni := ny * MAP_W + nx;
            && 0 <= ni < CELLS
            && (Inner(nx, ny) <==> Interior(ni))
            && ni == (if d == 0 then cur - MAP_W else if d == 2 then cur + 1
                      else if d == 4 then cur + MAP_W else cur - 1)
  {}

  /** Which way leads from `cur` to `j`. */
  function Direction(cur: int, j: int): int {
    if j == cur - MAP_W then 0 else if j == cur + 1 then 2 else if j == cur + MAP_W then 4 else 6
  }

  /** The inner loop: mark and push the unmarked open cells next to `cur`. */
  method PushNeighbours(tiles: array<Tile>, seen: array<bool>, stack: array<int>, sp0: nat, cur: int,
                        ghost marked: set<int>)
    returns (sp: nat, ghost found: set<int>)
    requires tiles.Length == CELLS == stack.Length && sp0 <= CELLS && Interior(cur) && Marks(seen, marked)
    requires Distinct(stack[..sp0]) && Elements(stack[..sp0]) <= marked
    modifies seen, stack
    ensures sp0 <= sp <= CELLS && stack[..sp0] == old(stack[..sp0])
    ensures found !! marked && Marks(seen, marked + found)
    ensures Distinct(stack[..sp]) && Elements(stack[..sp]) == Elements(stack[..sp0]) + found
    ensures forall j <- found :: Adjacent(cur, j) && Open(tiles[..], j)
    ensures forall j :: Adjacent(cur, j) && Open(tiles[..], j) ==> j in marked + found
  {
    hide Elements, Distinct, Below;
    sp, found := sp0, {};
    var cx, cy := cur % MAP_W, cur / MAP_W;
    var d := 0;
    while d < 8
      invariant d in {0, 2, 4, 6, 8}
      invariant sp0 <= sp <= CELLS && stack[..sp0] == old(stack[..sp0])
      invariant found !! marked && Marks(seen, marked + found)
      invariant Distinct(stack[..sp]) && Elements(stack[..sp]) == Elements(stack[..sp0]) + found
      invariant forall j <- found :: Adjacent(cur, j) && Open(tiles[..], j)
      invariant forall j :: Adjacent(cur, j) && Open(tiles[..], j) && Direction(cur, j) < d ==> j in marked + found
      decreases 8 - d
    {
      NeighbourCell(cur, d);
      var nx, ny := cx + DX[d], cy + DY[d];
      var ni := ny * MAP_W + nx;
      if Inner(nx, ny) && tiles[ni] != T_WALL && !seen[ni] {
        ghost var before := stack[..sp];
        StackHasRoom(before, marked + found, ni);
        PushOne(before, ni);
        seen[ni] := true;
        stack[sp] := ni;
        assert stack[..sp + 1] == before + [ni];
        assert stack[..sp0] == before[..sp0];
        sp, found := sp + 1, found + {ni};
      }
      d := d + 2;
    }
  }

  lemma PushOne(s: seq<int>, i: int)
    requires Distinct(s) && i !in Elements(s)
    ensures Distinct(s + [i]) && Elements(s + [i]) == Elements(s) + {i}
  {
    assert forall k :: 0 <= k < |s| ==> s[k] in Elements(s);
    assert (s + [i])[|s|] == i;
    forall x | x in Elements(s) ensures x in Elements(s + [i]) {
      var k :| 0 <= k < |s| && s[k] == x;
      assert (s + [i])[k] == x;
    }
  }

  lemma PopOne(s: seq<int>)
    requires Distinct(s) && s != []
    ensures Distinct(s[..|s| - 1]) && Elements(s[..|s| - 1]) == Elements(s) - {s[|s| - 1]}
    ensures s[|s| - 1] in Elements(s)
  {
    var n := |s| - 1;
    forall x | x in Elements(s) && x != s[n] ensures x in Elements(s[..n]) {
      var k :| 0 <= k < |s| && s[k] == x;
      assert s[..n][k] == x;
    }
  }

  lemma PopTop(stack: array<int>, sp: nat)
    requires 0 < sp <= stack.Length && Distinct(stack[..sp])
    ensures Distinct(stack[..sp - 1]) && Elements(stack[..sp - 1]) == Elements(stack[..sp]) - {stack[sp - 1]}
    ensures stack[sp - 1] in Elements(stack[..sp])
  {
    PopOne(stack[..sp]);
    assert stack[..sp][..sp - 1] == stack[..sp - 1];
  }

  /** Cells finished so far lead only to marked cells, and everything new is reachable. */
  ghost predicate Frontier(t: seq<Tile>, before: set<int>, done: set<int>, todo: set<int>, start: int)
    requires |t| == CELLS
  {
    && start in done + todo
    && before !! done && before !! todo && done !! todo
    && (forall i <- done + todo :: Interior(i) && Reach(t, start, i))
    && (forall i, j :: i in done && Adjacent(i, j) && Open(t, j) ==> j in before + done + todo)
  }

  lemma FrontierMoves(t: seq<Tile>, before: set<int>, done: set<int>, todo: set<int>, start: int,
                      cur: int, found: set<int>)
    requires |t| == CELLS && Frontier(t, before, done, todo, start) && cur in todo
    requires found !! (before + done + todo)
    requires forall j <- found :: Adjacent(cur, j) && Open(t, j)
    requires forall j :: Adjacent(cur, j) && Open(t, j) ==> j in before + done + todo + found
    ensures Frontier(t, before, done + {cur}, todo - {cur} + found, start)
  {
    hide Reach;
    forall j | j in found ensures Reach(t, start, j) {
      ReachStep(t, start, cur, j);
    }
  }

  lemma FrontierStarts(t: seq<Tile>, before: set<int>, start: int)
    requires |t| == CELLS && Open(t, start) && start !in before
    ensures Frontier(t, before, {}, {start}, start)
  {
    ReachSelf(t, start);
  }

  lemma FrontierCell(t: seq<Tile>, before: set<int>, done: set<int>, todo: set<int>, start: int, cur: int)
    requires |t| == CELLS && Frontier(t, before, done, todo, start) && cur in todo
    ensures Interior(cur) && cur !in done && cur in Below(CELLS)
  {
  }

  lemma FrontierEnds(t: seq<Tile>, before: set<int>, done: set<int>, start: int)
    requires |t| == CELLS && Closed(t, before) && Frontier(t, before, done, {}, start)
    ensures done == Region(t, start) && before !! done
  {
    FloodIsRegion(t, before, done, start);
  }

  /** The fill from `start`: marks its region and counts it. */
  method Flood(tiles: array<Tile>, seen: array<bool>, stack: array<int>, start: int, ghost before: set<int>)
    returns (size: nat)
    requires tiles.Length == CELLS == stack.Length && Marks(seen, before)
    requires Closed(tiles[..], before) && Open(tiles[..], start) && start !in before
    modifies seen, stack
    ensures Marks(seen, before + Region(tiles[..], start))
    ensures size == |Region(tiles[..], start)|
    ensures before !! Region(tiles[..], start)
  {
    hide Elements, Distinct, Below, Closed, Region, Reach, Frontier, Adjacent;
    ghost var t := tiles[..];
    ghost var done, todo := {}, {start};
    size := 0;
    stack[0] := start;
    seen[start] := true;
    var sp := 1;
    OnlyOne(start);
    FrontierStarts(t, before, start);
    assert stack[..1] == [start];
    while sp > 0
      invariant tiles[..] == t && sp <= CELLS
      invariant Distinct(stack[..sp]) && Elements(stack[..sp]) == todo
      invariant Marks(seen, before + done + todo)
      invariant Frontier(t, before, done, todo, start)
      invariant size == |done|
      decreases Below(CELLS) - done
    {
      PopTop(stack, sp);
      sp := sp - 1;
      var cur := stack[sp];
      size := size + 1;
      FrontierCell(t, before, done, todo, start, cur);
      ghost var found;
      sp, found := PushNeighbours(tiles, seen, stack, sp, cur, before + done + todo);
      FrontierMoves(t, before, done, todo, start, cur, found);
      assert before + done + todo + found == before + (done + {cur}) + (todo - {cur} + found);
      done, todo := done + {cur}, todo - {cur} + found;
    }
    NothingLeft(stack[..sp]);
    FrontierEnds(t, before, done, start);
    assert before + done + todo == before + done;
  }

  lemma OnlyOne(i: int)
    ensures Distinct([i]) && Elements([i]) == {i}
  {
    assert [i][0] == i;
  }

  lemma NothingLeft(s: seq<int>)
    requires s == []
    ensures Elements(s) == {}
  {}

  /** The fills so far covered whole regions, none larger than the best one. */
  ghost predicate BestSoFar(t: seq<Tile>, s: set<int>, best: int, size: nat)
    requires |t| == CELLS
  {
    && Closed(t, s)
    && (forall i <- s :: |Region(t, i)| <= size)
    && (if best < 0 then size == 0 && s == {} else Open(t, best) && size == |Region(t, best)|)
  }

  /** Every open cell before row `y`, column `x` has been filled. */
  ghost predicate ScannedTo(t: seq<Tile>, s: set<int>, y: int, x: int)
    requires |t| == CELLS
  {
    forall i :: Open(t, i) && (i / MAP_W < y || (i / MAP_W == y && i % MAP_W < x)) ==> i in s
  }

  lemma BestExtends(t: seq<Tile>, s: set<int>, best: int, size: nat, start: int)
    requires |t| == CELLS && BestSoFar(t, s, best, size) && Open(t, start) && start !in s
    ensures var n := |Region(t, start)|;
            && start in Region(t, start)
            && n > 0
            && BestSoFar(t, s + Region(t, start), if n > size then start else best, if n > size then n else size)
  {
    var r := Region(t, start);
    ReachSelf(t, start);
    assert start in r;
    RegionClosed(t, start);
    ClosedUnion(t, s, r);
    forall i | i in r ensures Region(t, i) == r {
      SameRegion(t, start, i);
    }
  }

  /** The scan: fill every region once and remember where a largest one starts. */
  method FindLargest(tiles: array<Tile>, seen: array<bool>, stack: array<int>)
    returns (best: int, size: nat, ghost s: set<int>)
    requires tiles.Length == CELLS == stack.Length && Marks(seen, {})
    modifies seen, stack
    ensures BestSoFar(tiles[..], s, best, size) && forall i :: Open(tiles[..], i) ==> i in s
  {
    hide BestSoFar, Region, Closed;
    ghost var t := tiles[..];
    best, size, s := -1, 0, {};
    EmptyIsBest(t);
    for y := 1 to MAP_H - 1
      invariant tiles[..] == t && Marks(seen, s)
      invariant BestSoFar(t, s, best, size) && ScannedTo(t, s, y, 1)
    {
      best, size, s := ScanRow(tiles, seen, stack, y, best, size, s);
    }
  }

  lemma EmptyIsBest(t: seq<Tile>)
    requires |t| == CELLS
    ensures BestSoFar(t, {}, -1, 0) && ScannedTo(t, {}, 1, 1)
  {}

  method ScanRow(tiles: array<Tile>, seen: array<bool>, stack: array<int>, y: int,
                 best0: int, size0: nat, ghost s0: set<int>)
    returns (best: int, size: nat, ghost s: set<int>)
    requires tiles.Length == CELLS == stack.Length && Marks(seen, s0) && 1 <= y < MAP_H - 1
    requires BestSoFar(tiles[..], s0, best0, size0) && ScannedTo(tiles[..], s0, y, 1)
    modifies seen, stack
    ensures Marks(seen, s)
    ensures BestSoFar(tiles[..], s, best, size) && ScannedTo(tiles[..], s, y + 1, 1)
  {
    hide BestSoFar, Region, Closed;
    ghost var t := tiles[..];
    best, size, s := best0, size0, s0;
    for x := 1 to MAP_W - 1
      invariant tiles[..] == t && Marks(seen, s)
      invariant BestSoFar(t, s, best, size) && ScannedTo(t, s, y, x)
    {
      var start := y * MAP_W + x;
      CellAt(x, y);
      if tiles[start] != T_WALL && !seen[start] {
        BestIsClosed(t, s, best, size);
        var n := Flood(tiles, seen, stack, start, s);
        BestExtends(t, s, best, size, start);
        s := s + Region(t, start);
        if n > size {
          best, size := start, n;
        }
      }
    }
  }

  lemma CellAt(x: int, y: int)
    requires Inner(x, y)
    ensures var i := y * MAP_W + x; 0 <= i < CELLS && i % MAP_W == x && i / MAP_W == y && Interior(i)
  {}

  lemma BestIsClosed(t: seq<Tile>, s: set<int>, best: int, size: nat)
    requires |t| == CELLS && BestSoFar(t, s, best, size)
    ensures Closed(t, s)
  {}

  /** What is kept: nothing when there is no open cell, else one region that no other
      region exceeds. */
  ghost predicate Largest(t: seq<Tile>, keep: set<int>)
    requires |t| == CELLS
  {
    if forall i :: !Open(t, i) then keep == {}
    else
      && (exists a :: Open(t, a) && keep == Region(t, a))
      && forall b :: Open(t, b) ==> |Region(t, b)| <= |keep|
  }

  /** keep_largest_region: only the kept cells survive, with their tiles. */
  method KeepLargestRegion(tiles: array<Tile>, seen: array<bool>, stack: array<int>)
    returns (ghost keep: set<int>)
    requires tiles.Length == CELLS == stack.Length == seen.Length
    modifies tiles, seen, stack
    ensures InMap(keep) && Largest(old(tiles[..]), keep)
    ensures forall i :: 0 <= i < CELLS ==> tiles[i] == if i in keep then old(tiles[i]) else T_WALL
  {
    hide Region, Closed, Reach;
    ghost var t := tiles[..];
    ClearMarks(seen);
    ghost var s;
    var best, size;
    best, size, s := FindLargest(tiles, seen, stack);
    ClearMarks(seen);
    keep := {};
    if best >= 0 {
      NothingClosed(t);
      BestIsOpen(t, s, best, size);
      var n := Flood(tiles, seen, stack, best, {});
      keep := Region(t, best);
      assert {} + keep == keep;
    }
    BestIsLargest(t, s, best, size, keep);
    for i := 0 to CELLS
      invariant Marks(seen, keep)
      invariant forall k :: 0 <= k < i ==> tiles[k] == if k in keep then t[k] else T_WALL
      invariant forall k :: i <= k < CELLS ==> tiles[k] == t[k]
    {
      if tiles[i] != T_WALL && !seen[i] {
        tiles[i] := T_WALL;
      }
    }
  }

  method ClearMarks(seen: array<bool>)
    requires seen.Length == CELLS
    modifies seen
    ensures Marks(seen, {})
  {
    for i := 0 to CELLS
      invariant forall k :: 0 <= k < i ==> !seen[k]
    {
      seen[i] := false;
    }
  }

  lemma NothingClosed(t: seq<Tile>)
    requires |t| == CELLS
    ensures Closed(t, {})
  {}

  lemma BestIsOpen(t: seq<Tile>, s: set<int>, best: int, size: nat)
    requires |t| == CELLS && BestSoFar(t, s, best, size) && best >= 0
    ensures Open(t, best)
  {}

  lemma BestIsLargest(t: seq<Tile>, s: set<int>, best: int, size: nat, keep: set<int>)
    requires |t| == CELLS && BestSoFar(t, s, best, size) && forall i :: Open(t, i) ==> i in s
    requires keep == if best >= 0 then Region(t, best) else {}
    ensures Largest(t, keep)
  {
    if best >= 0 { assert Open(t, best); }
  }

  /** Keeping only `keep`. */
  predicate Keeps(t: seq<Tile>, t': seq<Tile>, keep: set<int>) {
    && |t| == |t'| == CELLS
    && forall i :: 0 <= i < CELLS ==> t'[i] == if i in keep then t[i] else T_WALL
  }

  lemma PathInKept(t: seq<Tile>, t': seq<Tile>, keep: set<int>, a: int, p: seq<int>)
    requires Keeps(t, t', keep) && keep == Region(t, a) && p != [] && Path(t, p) && p[0] in keep
    ensures Path(t', p)
  {
    hide Reach;
    forall k | 0 <= k < |p| ensures Open(t', p[k]) {
      assert Path(t, p[..k + 1]);
      RegionClosed(t, a);
      PathStaysIn(t, keep, p[..k + 1]);
    }
  }

  /** After pruning the floor is exactly the kept cells, off the border, and one piece. */
  lemma FloorIsOneRegion(t: seq<Tile>, t': seq<Tile>, keep: set<int>)
    requires Keeps(t, t', keep) && Largest(t, keep)
    ensures forall i :: 0 <= i < CELLS ==> (t'[i] != T_WALL <==> i in keep)
    ensures forall i :: 0 <= i < CELLS && t'[i] != T_WALL ==> Interior(i)
    ensures forall a, b :: a in keep && b in keep ==> Reach(t', a, b)
  {
    if exists i :: Open(t, i) {
      var o :| Open(t, o) && keep == Region(t, o);
      forall i | i in keep ensures Open(t, i) {
        ReachOpen(t, o, i);
      }
      forall a, b | a in keep && b in keep ensures Reach(t', a, b) {
        ReachBack(t, o, a);
        ReachThrough(t, a, o, b);
        var p :| PathFromTo(t, p, a, b);
        PathInKept(t, t', keep, o, p);
        assert PathFromTo(t', p, a, b);
      }
    }
  }
}
