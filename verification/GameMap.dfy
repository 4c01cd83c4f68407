/** gen_map: a cellular-automaton cave, then its largest region. */
module GameMap {
  import opened CaveGraph
  import opened CaveFill

  /** Border wall, inner cells wall when their draw in 0..99 is below 45. */
  function Seeded(noise: seq<nat>): (t: seq<Tile>)
    requires |noise| == CELLS
    ensures |t| == CELLS
  {
    seq(CELLS, i requires 0 <= i < CELLS => if Interior(i) && noise[i] >= 45 then T_FLOOR else T_WALL)
  }

  /** Walls among the first `k` cells of the 3 by 3 block around (x, y), centre left out. */
  function WallsAround(t: seq<Tile>, x: int, y: int, k: nat): (n: nat)
    requires |t| == CELLS && Inner(x, y) && k <= 9
    ensures n <= k
  {
    if k == 0 then 0
    else
      var dx, dy := (k - 1) % 3 - 1, (k - 1) / 3 - 1;
      WallsAround(t, x, y, k - 1)
      + if !(dx == 0 && dy == 0) && t[(y + dy) * MAP_W + (x + dx)] == T_WALL then 1 else 0
  }

  /** One pass: an inner cell with five or more walls around it becomes wall. */
  function Smoothed(t: seq<Tile>): (r: seq<Tile>)
    requires |t| == CELLS
    ensures |r| == CELLS
  {
    seq(CELLS, i requires 0 <= i < CELLS =>
      if !Interior(i) then t[i]
      else if WallsAround(t, i % MAP_W, i / MAP_W, 9) >= 5 then T_WALL else T_FLOOR)
  }

  function Passes(t: seq<Tile>, n: nat): (r: seq<Tile>)
    requires |t| == CELLS
    ensures |r| == CELLS
  {
    if n == 0 then t else Smoothed(Passes(t, n - 1))
  }

  method WallNeighbours(tiles: array<Tile>, x: int, y: int) returns (n: nat)
    requires tiles.Length == CELLS && Inner(x, y)
    ensures n == WallsAround(tiles[..], x, y, 9)
  {
    hide WallsAround;
    n := 0;
    var k := 0;
    NoWallsYet(tiles[..], x, y);
    var dy := -1;
    while dy <= 1
      invariant -1 <= dy <= 2 && k == 3 * (dy + 1) && n == WallsAround(tiles[..], x, y, k)
    {
      var dx := -1;
      while dx <= 1
        invariant -1 <= dx <= 2 && k == 3 * (dy + 1) + dx + 1 && n == WallsAround(tiles[..], x, y, k)
      {
        WallsStep(tiles[..], x, y, dx, dy);
        if !(dx == 0 && dy == 0) && tiles[(y + dy) * MAP_W + (x + dx)] == T_WALL {
          n := n + 1;
        }
        k, dx := k + 1, dx + 1;
      }
      dy := dy + 1;
    }
  }

  lemma NoWallsYet(t: seq<Tile>, x: int, y: int)
    requires |t| == CELLS && Inner(x, y)
    ensures WallsAround(t, x, y, 0) == 0
  {}

  lemma WallsStep(t: seq<Tile>, x: int, y: int, dx: int, dy: int)
    requires |t| == CELLS && Inner(x, y) && -1 <= dx <= 1 && -1 <= dy <= 1
    ensures var k := 3 * (dy + 1) + dx + 1;
            && 0 <= (y + dy) * MAP_W + (x + dx) < CELLS
            && WallsAround(t, x, y, k + 1) == WallsAround(t, x, y, k)
               + (if !(dx == 0 && dy == 0) && t[(y + dy) * MAP_W + (x + dx)] == T_WALL then 1 else 0)
  {
    var k := 3 * (dy + 1) + dx + 1;
    assert k % 3 - 1 == dx && k / 3 - 1 == dy;
  }

  /** One smoothing pass through the scratch map `next`. */
  method Smooth(tiles: array<Tile>, next: array<Tile>)
    requires tiles.Length == CELLS == next.Length && tiles != next
    modifies tiles, next
    ensures tiles[..] == Smoothed(old(tiles[..]))
  {
    hide WallsAround;
    ghost var t := tiles[..];
    for i := 0 to CELLS
      invariant tiles[..] == t
      invariant forall k :: 0 <= k < i && Interior(k) ==> next[k] == Smoothed(t)[k]
    {
      if Interior(i) {
        var n := WallNeighbours(tiles, i % MAP_W, i / MAP_W);
        next[i] := if n >= 5 then T_WALL else T_FLOOR;
      }
    }
    for i := 0 to CELLS
      invariant forall k :: 0 <= k < CELLS && Interior(k) ==> next[k] == Smoothed(t)[k]
      invariant forall k :: 0 <= k < i ==> tiles[k] == Smoothed(t)[k]
      invariant forall k :: i <= k < CELLS ==> tiles[k] == t[k]
    {
      if Interior(i) {
        tiles[i] := next[i];
      }
    }
  }

  /** gen_map with the random draws given: the smoothed cave, pruned to a largest region. */
  method GenMap(tiles: array<Tile>, noise: seq<nat>) returns (ghost keep: set<int>)
    requires tiles.Length == CELLS && |noise| == CELLS
    modifies tiles
    ensures InMap(keep) && Largest(Passes(Seeded(noise), 4), keep)
    ensures Keeps(Passes(Seeded(noise), 4), tiles[..], keep)
    ensures forall i :: 0 <= i < CELLS ==> tiles[i] == if i in keep then T_FLOOR else T_WALL
  {
    hide Smoothed, Largest;
    var next, seen, stack := new Tile[CELLS], new bool[CELLS], new int[CELLS];
    for i := 0 to CELLS
      invariant forall k :: 0 <= k < i ==> tiles[k] == Seeded(noise)[k]
    {
      tiles[i] := if Interior(i) && noise[i] >= 45 then T_FLOOR else T_WALL;
    }
    assert tiles[..] == Seeded(noise);
    for pass := 0 to 4
      invariant tiles[..] == Passes(Seeded(noise), pass)
    {
      Smooth(tiles, next);
    }
    ghost var cave := tiles[..];
    keep := KeepLargestRegion(tiles, seen, stack);
    FloorIsOneRegion(cave, tiles[..], keep);
    OnlyFloor(Seeded(noise), 4);
  }

  lemma {:induction false} OnlyFloor(t: seq<Tile>, n: nat)
    requires |t| == CELLS && forall i :: 0 <= i < CELLS ==> t[i] == T_WALL || t[i] == T_FLOOR
    ensures forall i :: 0 <= i < CELLS ==> Passes(t, n)[i] == T_WALL || Passes(t, n)[i] == T_FLOOR
  {
    hide WallsAround;
    if n > 0 { OnlyFloor(t, n - 1); }
  }
}
