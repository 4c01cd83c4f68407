/** The simulation: players, creatures and shots on the map, one tick at a time.
    Random draws are parameters. */
module GameWorld {
  import opened CaveGraph
  import opened CaveFill
  import opened GameMap

  const MAX_PLAYERS := 4
  const MAX_CREATURES := 24
  const MAX_SHOTS := 16
  const SHOT_RANGE := 6
  const SHOT_SPEED := 2
  const PLAYER_HP := 10
  const FIRE_CD := 2
  const RESPAWN_T := 24
  const CREATURE_DMG := 1
  const TRIES := 4000
  const IN_NONE := 0xff

  type Byte = x: int | 0 <= x < 0x100

  datatype Player = Player(x: Byte, y: Byte, facing: Byte, alive: bool, hp: Byte, input: Byte, score: int)
  datatype Creature = Creature(x: Byte, y: Byte, kind: Byte, alive: bool)
  datatype Shot = Shot(x: Byte, y: Byte, dir: Byte, alive: bool, owner: Byte, ttl: Byte)

  /** A draw of random_floor: an inner position. */
  type Spot = p: (int, int) | Inner(p.0, p.1) witness (1, 1)

  function Sgn(v: int): int { if v < 0 then -1 else if v > 0 then 1 else 0 }

  predicate InMapXY(x: int, y: int) { 0 <= x < MAP_W && 0 <= y < MAP_H }

  function Cell(x: int, y: int): int { y * MAP_W + x }

  /** is_floor: inside the map and not wall. */
  predicate OnFloor(t: seq<Tile>, x: int, y: int)
    requires |t| == CELLS
  {
    InMapXY(x, y) && t[Cell(x, y)] != T_WALL
  }

  /** The set of cells that are not wall. */
  ghost function Floor(t: seq<Tile>): set<int>
    requires |t| == CELLS
  {
    set i | 0 <= i < CELLS && t[i] != T_WALL
  }

  lemma OnFloorIsMember(t: seq<Tile>, x: int, y: int)
    requires |t| == CELLS && InMapXY(x, y)
    ensures OnFloor(t, x, y) <==> Cell(x, y) in Floor(t)
  {}

  // ----- the invariant, one entity kind at a time -----

  predicate PlayersOk(ps: seq<Player>, t: seq<Tile>)
    requires |t| == CELLS
  {
    |ps| == MAX_PLAYERS &&
    forall i :: 0 <= i < |ps| ==> (ps[i].alive ==> OnFloor(t, ps[i].x, ps[i].y) && 0 < ps[i].hp <= PLAYER_HP)
  }

  predicate CreaturesOk(cs: seq<Creature>, t: seq<Tile>)
    requires |t| == CELLS
  {
    |cs| == MAX_CREATURES && forall i :: 0 <= i < |cs| ==> (cs[i].alive ==> OnFloor(t, cs[i].x, cs[i].y))
  }

  predicate ShotsOk(ss: seq<Shot>, t: seq<Tile>)
    requires |t| == CELLS
  {
    |ss| == MAX_SHOTS &&
    forall i :: 0 <= i < |ss| ==>
      (ss[i].alive ==> OnFloor(t, ss[i].x, ss[i].y) && ss[i].dir < 8 && ss[i].owner < MAX_PLAYERS
                       && ss[i].ttl <= SHOT_RANGE)
  }

  // ----- counting -----

  function AliveCount(cs: seq<Creature>): nat {
    if cs == [] then 0 else AliveCount(cs[..|cs| - 1]) + if cs[|cs| - 1].alive then 1 else 0
  }

  function TotalScore(ps: seq<Player>): int {
    if ps == [] then 0 else TotalScore(ps[..|ps| - 1]) + ps[|ps| - 1].score
  }

  lemma {:induction false} KillOne(cs: seq<Creature>, i: nat, c: Creature)
    requires i < |cs| && cs[i].alive && !c.alive
    ensures AliveCount(cs[i := c]) == AliveCount(cs) - 1
    decreases |cs|
  {
    var n := |cs| - 1;
    if i < n {
      assert cs[i := c][..n] == cs[..n][i := c];
      KillOne(cs[..n], i, c);
    } else {
      assert cs[i := c][..n] == cs[..n];
    }
  }

  lemma {:induction false} ScoreOne(ps: seq<Player>, i: nat, p: Player)
    requires i < |ps|
    ensures TotalScore(ps[i := p]) == TotalScore(ps) + p.score - ps[i].score
    decreases |ps|
  {
    var n := |ps| - 1;
    if i < n {
      assert ps[i := p][..n] == ps[..n][i := p];
      ScoreOne(ps[..n], i, p);
    } else {
      assert ps[i := p][..n] == ps[..n];
    }
  }

  // ----- searches -----

  /** vec_to_dir: the direction towards (dx, dy), or -1 when there is none. */
  method VecToDir(dx: int, dy: int) returns (dir: int)
    ensures -1 <= dir < 8
    ensures dir >= 0 ==> DX[dir] == Sgn(dx) && DY[dir] == Sgn(dy)
    ensures dir < 0 <==> dx == 0 && dy == 0
  {
    var sx, sy := Sgn(dx), Sgn(dy);
    for i := 0 to 8
      invariant forall k :: 0 <= k < i ==> !(DX[k] == sx && DY[k] == sy)
    {
      if DX[i] == sx && DY[i] == sy {
        return i;
      }
    }
    assert DX[0] == 0 && DX[1] == 1 && DX[2] == 1 && DX[3] == 1 && DX[4] == 0 && DX[5] == -1 && DX[6] == -1
        && DX[7] == -1;
    dir := -1;
  }

  function Distance(p: Player, cx: int, cy: int): int {
    var ax := if p.x < cx then cx - p.x else (p.x as int) - cx;
    var ay := if p.y < cy then cy - p.y else (p.y as int) - cy;
    if ax > ay then ax else ay
  }

  /** nearest_player: the first living player at least distance, or -1 if none lives. */
  method NearestPlayer(players: array<Player>, cx: Byte, cy: Byte) returns (best: int)
    ensures -1 <= best < players.Length
    ensures best < 0 ==> forall i :: 0 <= i < players.Length ==> !players[i].alive
    ensures best >= 0 ==> players[best].alive
    ensures best >= 0 ==> forall i :: 0 <= i < players.Length && players[i].alive ==>
                            Distance(players[best], cx, cy) <= Distance(players[i], cx, cy)
    ensures best >= 0 ==> forall i :: 0 <= i < best && players[i].alive ==>
                            Distance(players[best], cx, cy) < Distance(players[i], cx, cy)
  {
    best := -1;
    var bestD := 0x7fff;
    for i := 0 to players.Length
      invariant -1 <= best < i
      invariant best < 0 ==> bestD == 0x7fff && forall k :: 0 <= k < i ==> !players[k].alive
      invariant best >= 0 ==> players[best].alive && bestD == Distance(players[best], cx, cy)
      invariant best >= 0 ==> forall k :: 0 <= k < i && players[k].alive ==> bestD <= Distance(players[k], cx, cy)
      invariant best >= 0 ==> forall k :: 0 <= k < best && players[k].alive ==> bestD < Distance(players[k], cx, cy)
    {
      if players[i].alive {
        var d := Distance(players[i], cx, cy);
        if d < bestD {
          best, bestD := i, d;
        }
      }
    }
  }

  predicate Stands(c: Creature, x: int, y: int) { c.alive && c.x == x && c.y == y }

  /** creature_at: the first living creature on (x, y), or -1. */
  method CreatureAt(creatures: array<Creature>, x: int, y: int) returns (at: int)
    ensures -1 <= at < creatures.Length
    ensures at >= 0 ==> Stands(creatures[at], x, y)
    ensures forall i :: 0 <= i < (if at < 0 then creatures.Length else at) ==> !Stands(creatures[i], x, y)
  {
    for i := 0 to creatures.Length
      invariant forall k :: 0 <= k < i ==> !Stands(creatures[k], x, y)
    {
      if creatures[i].alive && creatures[i].x == x && creatures[i].y == y {
        return i;
      }
    }
    at := -1;
  }

  /** None of the first `n` drawn positions is plain floor. */
  predicate NoneBefore(t: seq<Tile>, draws: seq<Spot>, n: nat)
    requires |t| == CELLS && n <= |draws|
  {
    forall k :: 0 <= k < n ==> t[Cell(draws[k].0, draws[k].1)] != T_FLOOR
  }

  /** (x, y) is the first drawn position that is plain floor. */
  predicate FirstFloor(t: seq<Tile>, draws: seq<Spot>, x: Byte, y: Byte)
    requires |t| == CELLS
  {
    exists k :: 0 <= k < |draws| && draws[k] == (x, y) && NoneBefore(t, draws, k)
                && t[Cell(draws[k].0, draws[k].1)] == T_FLOOR
  }

  /** random_floor: the first of the drawn positions that is floor. */
  method RandomFloor(tiles: array<Tile>, draws: seq<Spot>) returns (ok: bool, x: Byte, y: Byte)
    requires tiles.Length == CELLS && |draws| == TRIES
    ensures ok ==> OnFloor(tiles[..], x, y) && tiles[Cell(x, y)] == T_FLOOR
    ensures ok ==> FirstFloor(tiles[..], draws, x, y)
    ensures !ok ==> NoneBefore(tiles[..], draws, |draws|)
  {
    for k := 0 to TRIES
      invariant NoneBefore(tiles[..], draws, k)
    {
      var (dx, dy) := draws[k];
      CellAt(dx, dy);
      if tiles[Cell(dx, dy)] == T_FLOOR {
        return true, dx, dy;
      }
    }
    ok, x, y := false, 0, 0;
  }

  // ----- the world -----

  /** Tiles change only where a player picks up treasure. */
  predicate Collected(t: seq<Tile>, t': seq<Tile>) {
    |t| == |t'| == CELLS &&
    forall i :: 0 <= i < CELLS ==> t'[i] == t[i] || (t[i] == T_TREASURE && t'[i] == T_FLOOR)
  }

  lemma CollectedKeeps(t: seq<Tile>, t': seq<Tile>, ps: seq<Player>, cs: seq<Creature>, ss: seq<Shot>)
    requires Collected(t, t')
    ensures Floor(t') == Floor(t)
    ensures PlayersOk(ps, t) ==> PlayersOk(ps, t')
    ensures CreaturesOk(cs, t) ==> CreaturesOk(cs, t')
    ensures ShotsOk(ss, t) ==> ShotsOk(ss, t')
  {
    assert forall x, y :: OnFloor(t, x, y) ==> OnFloor(t', x, y);
  }

  /** No treasure anywhere: nothing a player could pick up. */
  predicate Plain(t: seq<Tile>) { forall i :: 0 <= i < |t| ==> t[i] != T_TREASURE }

  lemma PlainStays(t: seq<Tile>, t': seq<Tile>)
    requires Collected(t, t') && Plain(t)
    ensures t' == t
  {}

  /** A slot whose player left alive. */
  predicate Abandoned(p: Player, wait: nat) { !p.alive && p.hp > 0 && wait == 0 }

  /** A slot game_add_player may give out. */
  predicate Vacant(p: Player, wait: nat) { !p.alive && p.hp == 0 && wait == 0 }

  /** The first living player at least distance from (x, y). */
  predicate Nearest(ps: seq<Player>, x: Byte, y: Byte, p: nat) {
    && p < |ps| && ps[p].alive
    && (forall i :: 0 <= i < |ps| && ps[i].alive ==> Distance(ps[p], x, y) <= Distance(ps[i], x, y))
    && (forall i :: 0 <= i < p && ps[i].alive ==> Distance(ps[p], x, y) < Distance(ps[i], x, y))
  }

  /** A creature may step on (x, y). */
  predicate Clear(t: seq<Tile>, cs: seq<Creature>, x: int, y: int)
    requires |t| == CELLS
  {
    OnFloor(t, x, y) && forall k :: 0 <= k < |cs| ==> !Stands(cs[k], x, y)
  }

  /** Creature `c` went towards (dx, dy): straight if it can, else along the row, else along
      the column, else not at all. */
  predicate Went(t: seq<Tile>, cs: seq<Creature>, c: Creature, c': Creature, dx: int, dy: int)
    requires |t| == CELLS
  {
    var sx, sy := (c.x as int) + Sgn(dx), (c.y as int) + Sgn(dy);
    && c' == c.(x := c'.x, y := c'.y)
    && (Clear(t, cs, sx, sy) ==> c'.x == sx && c'.y == sy)
    && (!Clear(t, cs, sx, sy) && Clear(t, cs, sx, c.y) ==> c'.x == sx && c'.y == c.y)
    && (!Clear(t, cs, sx, sy) && !Clear(t, cs, sx, c.y) && Clear(t, cs, c.x, sy) ==> c'.x == c.x && c'.y == sy)
    && (!Clear(t, cs, sx, sy) && !Clear(t, cs, sx, c.y) && !Clear(t, cs, c.x, sy) ==> c' == c)
  }

  lemma NearestOnce(ps: seq<Player>, x: Byte, y: Byte, p: nat)
    requires Nearest(ps, x, y, p)
    ensures forall q :: 0 <= q < |ps| && Nearest(ps, x, y, q) ==> q == p
  {
    hide Distance;
  }

  /** The creature stayed, or took one step on each axis towards a player or none on it. */
  ghost predicate Closer(c: Creature, c': Creature, ps: seq<Player>) {
    c' == c ||
    exists p :: 0 <= p < |ps| && ps[p].alive && c' == c.(x := c'.x, y := c'.y)
                && Toward(c.x, c'.x, ps[p].x) && Toward(c.y, c'.y, ps[p].y)
  }

  predicate Toward(was: Byte, now: Byte, goal: Byte) { now == was || now as int == was + Sgn(goal - was as int) }

  /** The countdown of a dead player; at its end the player is back on the first floor drawn,
      and stays dead exactly when none is drawn. */
  predicate Waited(t: seq<Tile>, draws: seq<Spot>, p: Player, p': Player, wait: nat, wait': nat)
    requires |t| == CELLS
  {
    if p.alive || wait == 0 then p' == p && wait' == wait
    else
      && wait' == wait - 1
      && if wait' > 0 || NoneBefore(t, draws, |draws|) then p' == p
         else p' == p.(x := p'.x, y := p'.y, alive := true, hp := PLAYER_HP) && FirstFloor(t, draws, p'.x, p'.y)
  }

  /** What a tick does to a slot: a dead player waits, a living one stays alive or begins to. */
  predicate Ticked(t: seq<Tile>, draws: seq<Spot>, p: Player, p': Player, wait: nat, wait': nat)
    requires |t| == CELLS
  {
    if p.alive then p'.alive || (p'.hp == 0 && wait' == RESPAWN_T - 1)
    else Waited(t, draws, p.(score := p'.score), p', wait, wait')
  }

  /** A creature on the first floor drawn for it, or none when no floor was drawn. */
  predicate Spawned(t: seq<Tile>, draws: seq<Spot>, c: Creature)
    requires |t| == CELLS
  {
    if NoneBefore(t, draws, |draws|) then !c.alive else c.alive && FirstFloor(t, draws, c.x, c.y)
  }

  // ----- what a step does -----

  /** One cell in direction `d`: 0 is north, and on clockwise. */
  function East(d: nat): int {
    if d == 1 || d == 2 || d == 3 then 1 else if d == 5 || d == 6 || d == 7 then -1 else 0
  }

  function South(d: nat): int {
    if d == 3 || d == 4 || d == 5 then 1 else if d == 7 || d == 0 || d == 1 then -1 else 0
  }

  lemma Directions(d: nat)
    requires d < 8
    ensures DX[d] == East(d) && DY[d] == South(d)
  {}

  /** A living player after its walk: it faces the way its input says and stands on the next
      cell that way if that is floor, where treasure is worth 25 points. */
  function WalkTo(t: seq<Tile>, p: Player): Player
    requires |t| == CELLS
  {
    var d := p.input % 16;
    var nx, ny := (p.x as int) + East(d), (p.y as int) + South(d);
    if d >= 8 then p
    else if !OnFloor(t, nx, ny) then p.(facing := d)
    else
      p.(x := nx, y := ny, facing := d,
         score := if t[Cell(nx, ny)] == T_TREASURE then (p.score + 25) % 0x1_0000 else p.score)
  }

  /** The treasure it steps on is gone. */
  function WalkTiles(t: seq<Tile>, p: Player): (t': seq<Tile>)
    requires |t| == CELLS
    ensures |t'| == CELLS
  {
    var d := p.input % 16;
    var nx, ny := (p.x as int) + East(d), (p.y as int) + South(d);
    if d < 8 && OnFloor(t, nx, ny) && t[Cell(nx, ny)] == T_TREASURE then t[Cell(nx, ny) := T_FLOOR] else t
  }

  /** The tiles when the first `n` players have walked, one after the other. */
  function TilesAfter(t: seq<Tile>, ps: seq<Player>, n: nat): (t': seq<Tile>)
    requires |t| == CELLS && n <= |ps|
    ensures |t'| == CELLS
  {
    if n == 0 then t
    else
      var t1 := TilesAfter(t, ps, n - 1);
      if ps[n - 1].alive then WalkTiles(t1, ps[n - 1]) else t1
  }

  function Walked(t: seq<Tile>, ps: seq<Player>, k: nat): Player
    requires |t| == CELLS && k < |ps|
  {
    if ps[k].alive then WalkTo(TilesAfter(t, ps, k), ps[k]) else ps[k]
  }

  /** The first slot without a shot, or the number of slots. */
  function FirstIdle(ss: seq<Shot>, i: nat): (r: nat)
    requires i <= |ss|
    ensures i <= r <= |ss| && (r < |ss| ==> !ss[r].alive) && forall k :: i <= k < r ==> ss[k].alive
    decreases |ss| - i
  {
    if i == |ss| || !ss[i].alive then i else FirstIdle(ss, i + 1)
  }

  /** The player's input has a firing direction, its weapon is ready and there is a slot. */
  predicate Fires(ss: seq<Shot>, p: Player, cd: nat) { p.input / 16 < 8 && cd <= 1 && FirstIdle(ss, 0) < |ss| }

  /** The shot starts where player `i` stands, after the walk. */
  function Fired(ss: seq<Shot>, p: Player, cd: nat, i: Byte): (ss': seq<Shot>)
    ensures |ss'| == |ss|
  {
    if Fires(ss, p, cd) then ss[FirstIdle(ss, 0) := Shot(p.x, p.y, p.input / 16, true, i, SHOT_RANGE)] else ss
  }

  function Cooled(ss: seq<Shot>, p: Player, cd: nat): nat {
    if Fires(ss, p, cd) then FIRE_CD else if cd > 0 then cd - 1 else 0
  }

  /** The shots when the first `n` players have walked and fired. */
  function ShotsAfter(ss: seq<Shot>, t: seq<Tile>, ps: seq<Player>, cds: seq<nat>, n: nat): (ss': seq<Shot>)
    requires |t| == CELLS && n <= |ps| == |cds| <= 0x100
    ensures |ss'| == |ss|
  {
    if n == 0 then ss
    else
      var s1 := ShotsAfter(ss, t, ps, cds, n - 1);
      if ps[n - 1].alive then Fired(s1, Walked(t, ps, n - 1), cds[n - 1], n - 1) else s1
  }

  /** The cooldown of player `k` after its turn. */
  function CooledAt(ss: seq<Shot>, t: seq<Tile>, ps: seq<Player>, cds: seq<nat>, k: nat): nat
    requires |t| == CELLS && k < |ps| == |cds| <= 0x100
  {
    if ps[k].alive then Cooled(ShotsAfter(ss, t, ps, cds, k), Walked(t, ps, k), cds[k]) else cds[k]
  }

  /** Shots, creatures and players. */
  datatype Field = Field(shots: seq<Shot>, creatures: seq<Creature>, players: seq<Player>)

  function FirstOn(cs: seq<Creature>, x: int, y: int, i: nat): (r: nat)
    requires i <= |cs|
    ensures i <= r <= |cs| && (r < |cs| ==> Stands(cs[r], x, y)) && forall k :: i <= k < r ==> !Stands(cs[k], x, y)
    decreases |cs| - i
  {
    if i == |cs| || Stands(cs[i], x, y) then i else FirstOn(cs, x, y, i + 1)
  }

  /** One move of shot `s`: it ends at a wall, at the first creature on its cell, which dies and
      is worth ten points to the owner, or when its range is used up. */
  function Moved(t: seq<Tile>, f: Field, s: nat): (f': Field)
    requires |t| == CELLS && s < |f.shots|
    ensures |f'.shots| == |f.shots| && |f'.creatures| == |f.creatures| && |f'.players| == |f.players|
  {
    var sh := f.shots[s];
    var nx, ny := (sh.x as int) + East(sh.dir), (sh.y as int) + South(sh.dir);
    if !OnFloor(t, nx, ny) then f.(shots := f.shots[s := sh.(alive := false)])
    else
      var c := FirstOn(f.creatures, nx, ny, 0);
      if c < |f.creatures| then
        Field(f.shots[s := sh.(x := nx, y := ny, alive := false)],
              f.creatures[c := f.creatures[c].(alive := false)],
              if sh.owner < |f.players| then
                f.players[sh.owner := f.players[sh.owner].(score := (f.players[sh.owner].score + 10) % 0x1_0000)]
              else f.players)
      else if sh.ttl == 0 then f.(shots := f.shots[s := sh.(x := nx, y := ny, alive := false)])
      else f.(shots := f.shots[s := sh.(x := nx, y := ny, ttl := sh.ttl - 1)])
  }

  lemma StopsAtWall(t: seq<Tile>, f: Field, s: nat)
    requires |t| == CELLS && s < |f.shots|
    requires var sh := f.shots[s]; !OnFloor(t, (sh.x as int) + East(sh.dir), (sh.y as int) + South(sh.dir))
    ensures Moved(t, f, s) == f.(shots := f.shots[s := f.shots[s].(alive := false)])
  {}

  lemma HitsFirst(t: seq<Tile>, f: Field, s: nat, c: nat)
    requires |t| == CELLS && s < |f.shots| && f.shots[s].owner < |f.players| && c < |f.creatures|
    requires var sh := f.shots[s];
             var nx, ny := (sh.x as int) + East(sh.dir), (sh.y as int) + South(sh.dir);
      OnFloor(t, nx, ny) && Stands(f.creatures[c], nx, ny) && forall k :: 0 <= k < c ==> !Stands(f.creatures[k], nx, ny)
    ensures var sh := f.shots[s];
            var nx, ny := (sh.x as int) + East(sh.dir), (sh.y as int) + South(sh.dir);
      Moved(t, f, s) ==
        Field(f.shots[s := sh.(x := nx, y := ny, alive := false)], f.creatures[c := f.creatures[c].(alive := false)],
              f.players[sh.owner := f.players[sh.owner].(score := (f.players[sh.owner].score + 10) % 0x1_0000)])
  {
    var sh := f.shots[s];
    assert FirstOn(f.creatures, (sh.x as int) + East(sh.dir), (sh.y as int) + South(sh.dir), 0) == c;
  }

  lemma FliesOn(t: seq<Tile>, f: Field, s: nat)
    requires |t| == CELLS && s < |f.shots|
    requires var sh := f.shots[s];
             var nx, ny := (sh.x as int) + East(sh.dir), (sh.y as int) + South(sh.dir);
      OnFloor(t, nx, ny) && forall k :: 0 <= k < |f.creatures| ==> !Stands(f.creatures[k], nx, ny)
    ensures var sh := f.shots[s];
            var nx, ny := (sh.x as int) + East(sh.dir), (sh.y as int) + South(sh.dir);
      Moved(t, f, s) == f.(shots := f.shots[s := if sh.ttl == 0 then sh.(x := nx, y := ny, alive := false)
                                                 else sh.(x := nx, y := ny, ttl := sh.ttl - 1)])
  {
    var sh := f.shots[s];
    assert FirstOn(f.creatures, (sh.x as int) + East(sh.dir), (sh.y as int) + South(sh.dir), 0) == |f.creatures|;
  }

  /** Up to `n` moves while it lives. */
  function Flight(t: seq<Tile>, f: Field, s: nat, n: nat): (f': Field)
    requires |t| == CELLS && s < |f.shots|
    ensures |f'.shots| == |f.shots| && |f'.creatures| == |f.creatures| && |f'.players| == |f.players|
    decreases n
  {
    if n == 0 || !f.shots[s].alive then f else Flight(t, Moved(t, f, s), s, n - 1)
  }

  /** The first `k` shots in turn. */
  function Flights(t: seq<Tile>, f: Field, k: nat): (f': Field)
    requires |t| == CELLS && k <= |f.shots|
    ensures |f'.shots| == |f.shots| && |f'.creatures| == |f.creatures| && |f'.players| == |f.players|
  {
    if k == 0 then f else Flight(t, Flights(t, f, k - 1), k - 1, SHOT_SPEED)
  }

  /** All players after their walks. */
  function AllWalked(t: seq<Tile>, ps: seq<Player>): (r: seq<Player>)
    requires |t| == CELLS
    ensures |r| == |ps| && forall k :: 0 <= k < |ps| ==> r[k] == Walked(t, ps, k)
  {
    seq(|ps|, k requires 0 <= k < |ps| => Walked(t, ps, k))
  }

  /** Creatures, players and the time to their return. */
  datatype Hunt = Hunt(creatures: seq<Creature>, players: seq<Player>, waits: seq<nat>)

  predicate HuntOk(h: Hunt) { |h.players| == |h.waits| }

  /** Where a creature goes for a goal (dx, dy) away: straight if it can, else along the row,
      else along the column, else nowhere. */
  function Gone(t: seq<Tile>, cs: seq<Creature>, c: Creature, dx: int, dy: int): Creature
    requires |t| == CELLS
  {
    var sx, sy := (c.x as int) + Sgn(dx), (c.y as int) + Sgn(dy);
    if Clear(t, cs, sx, sy) then c.(x := sx, y := sy)
    else if Clear(t, cs, sx, c.y) then c.(x := sx)
    else if Clear(t, cs, c.x, sy) then c.(y := sy)
    else c
  }

  /** Creature `i` hits player `p` when next to it, or goes towards it; a player hit with its
      last point falls and begins to wait. */
  function TurnAt(t: seq<Tile>, h: Hunt, i: nat, p: nat): (h': Hunt)
    requires |t| == CELLS && HuntOk(h) && i < |h.creatures| && p < |h.players|
    ensures HuntOk(h') && |h'.creatures| == |h.creatures| && |h'.players| == |h.players|
  {
    var c, q := h.creatures[i], h.players[p];
    var dx, dy := (q.x as int) - c.x, (q.y as int) - c.y;
    if !(-1 <= dx <= 1 && -1 <= dy <= 1) then h.(creatures := h.creatures[i := Gone(t, h.creatures, c, dx, dy)])
    else if q.hp > CREATURE_DMG then h.(players := h.players[p := q.(hp := q.hp - CREATURE_DMG)])
    else h.(players := h.players[p := q.(hp := 0, alive := false)], waits := h.waits[p := RESPAWN_T])
  }

  /** The turn of creature `i`, for the nearest living player. */
  ghost function TurnOf(t: seq<Tile>, h: Hunt, i: nat): (h': Hunt)
    requires |t| == CELLS && HuntOk(h) && i < |h.creatures|
    ensures HuntOk(h') && |h'.creatures| == |h.creatures| && |h'.players| == |h.players|
  {
    var c := h.creatures[i];
    if !c.alive || !exists p :: Nearest(h.players, c.x, c.y, p) then h
    else
      var p :| Nearest(h.players, c.x, c.y, p);
      TurnAt(t, h, i, p)
  }

  /** The first `n` creatures in turn. */
  ghost function Turns(t: seq<Tile>, h: Hunt, n: nat): (h': Hunt)
    requires |t| == CELLS && HuntOk(h) && n <= |h.creatures|
    ensures HuntOk(h') && |h'.creatures| == |h.creatures| && |h'.players| == |h.players|
  {
    if n == 0 then h else TurnOf(t, Turns(t, h, n - 1), n - 1)
  }

  lemma NextTurn(t: seq<Tile>, h: Hunt, n: nat)
    requires |t| == CELLS && HuntOk(h) && n < |h.creatures|
    ensures Turns(t, h, 0) == h && Turns(t, h, n + 1) == TurnOf(t, Turns(t, h, n), n)
    ensures !Turns(t, h, n).creatures[n].alive ==> Turns(t, h, n + 1) == Turns(t, h, n)
  {
    hide Nearest, TurnAt;
  }

  lemma TurnIs(t: seq<Tile>, h: Hunt, i: nat, p: nat)
    requires |t| == CELLS && HuntOk(h) && i < |h.creatures| && h.creatures[i].alive
    requires Nearest(h.players, h.creatures[i].x, h.creatures[i].y, p)
    ensures TurnOf(t, h, i) == TurnAt(t, h, i, p)
  {
    NearestOnce(h.players, h.creatures[i].x, h.creatures[i].y, p);
    hide Nearest, TurnAt;
  }

  lemma WentIsGone(t: seq<Tile>, cs: seq<Creature>, c: Creature, c': Creature, dx: int, dy: int)
    requires |t| == CELLS && Went(t, cs, c, c', dx, dy)
    ensures c' == Gone(t, cs, c, dx, dy)
  {
    hide Clear;
  }

  /** Everything a tick reads and changes. */
  datatype Scene = Scene(tiles: seq<Tile>, players: seq<Player>, creatures: seq<Creature>, shots: seq<Shot>,
      cooling: seq<nat>, waits: seq<nat>, tick: int)

  predicate SceneOk(s: Scene) {
    |s.tiles| == CELLS && |s.players| == |s.cooling| == |s.waits| == MAX_PLAYERS && |s.creatures| == MAX_CREATURES
    && |s.shots| == MAX_SHOTS
  }

  /** The tiles once all have walked. */
  function Trodden(s: Scene): (t: seq<Tile>)
    requires SceneOk(s)
    ensures |t| == CELLS
  {
    TilesAfter(s.tiles, s.players, MAX_PLAYERS)
  }

  /** Then the shots fly. */
  function Flown(s: Scene): (f: Field)
    requires SceneOk(s)
    ensures |f.shots| == MAX_SHOTS && |f.creatures| == MAX_CREATURES && |f.players| == MAX_PLAYERS
  {
    Flights(Trodden(s),
            Field(ShotsAfter(s.shots, s.tiles, s.players, s.cooling, MAX_PLAYERS), s.creatures,
                  AllWalked(s.tiles, s.players)),
            MAX_SHOTS)
  }

  /** And then, on even ticks, the creatures have their turns. */
  ghost function Fought(s: Scene): (h: Hunt)
    requires SceneOk(s)
    ensures |h.creatures| == MAX_CREATURES && |h.players| == |h.waits| == MAX_PLAYERS
  {
    var h := Hunt(Flown(s).creatures, Flown(s).players, s.waits);
    if s.tick % 2 == 1 then h else Turns(Trodden(s), h, MAX_CREATURES)
  }

  /** A turn changes one creature or one player. */
  lemma TurnMeans(t: seq<Tile>, h: Hunt, i: nat, p: nat)
    requires |t| == CELLS && HuntOk(h) && i < |h.creatures| && p < |h.players| && h.players[p].alive
    requires h.players[p].hp > 0
    ensures var h' := TurnAt(t, h, i, p);
      && (forall k :: 0 <= k < |h.creatures| && k != i ==> h'.creatures[k] == h.creatures[k])
      && (forall k :: 0 <= k < |h.players| ==> Hurt(h.players[k], h'.players[k]))
      && (forall k :: 0 <= k < |h.players| && !h.players[k].alive ==> h'.waits[k] == h.waits[k])
      && (forall k :: 0 <= k < |h.players| && h.players[k].alive && !h'.players[k].alive ==> h'.waits[k] == RESPAWN_T)
      && h'.creatures[i].alive == h.creatures[i].alive && Closer(h.creatures[i], h'.creatures[i], h.players)
  {
    hide Clear;
    var c, c', q := h.creatures[i], TurnAt(t, h, i, p).creatures[i], h.players[p];
    if c' != c { assert Toward(c.x, c'.x, q.x) && Toward(c.y, c'.y, q.y); }
  }

  /** A player within one step loses a point, and with the last one falls and waits 24 ticks;
      from farther off the creature comes nearer by one if the straight way is clear, and
      never goes away. */
  lemma TurnHunts(t: seq<Tile>, h: Hunt, i: nat, p: nat)
    requires |t| == CELLS && HuntOk(h) && i < |h.creatures| && p < |h.players| && h.players[p].alive
    requires h.players[p].hp > 0
    ensures var h' := TurnAt(t, h, i, p);
            var c, c', q, q' := h.creatures[i], h'.creatures[i], h.players[p], h'.players[p];
            var d := Distance(q, c.x, c.y);
      if d <= 1 then
        && h'.creatures == h.creatures && q' == q.(hp := q.hp - 1, alive := q.hp > 1)
        && (forall k :: 0 <= k < |h.players| && k != p ==> h'.players[k] == h.players[k])
        && h'.waits == if q.hp > 1 then h.waits else h.waits[p := 24]
      else
        && h'.players == h.players && h'.waits == h.waits
        && (forall k :: 0 <= k < |h.creatures| && k != i ==> h'.creatures[k] == h.creatures[k])
        && Distance(q, c'.x, c'.y) <= d
        && (Clear(t, h.creatures, (c.x as int) + Sgn((q.x as int) - c.x), (c.y as int) + Sgn((q.y as int) - c.y)) ==>
              Distance(q, c'.x, c'.y) == d - 1)
  {
    hide Clear;
  }

  class World {
    const tiles: array<Tile>
    const players: array<Player>
    const creatures: array<Creature>
    const shots: array<Shot>
    const fireCd: array<nat>
    const respawnT: array<nat>
    var tick: int
    ghost var home: set<int>  // the region kept by map generation

    ghost predicate Valid()
      reads this, tiles, players, creatures, shots, fireCd, respawnT
    {
      && tiles.Length == CELLS
      && fireCd.Length == MAX_PLAYERS == respawnT.Length && fireCd != respawnT
      && PlayersOk(players[..], tiles[..])
      && CreaturesOk(creatures[..], tiles[..])
      && ShotsOk(shots[..], tiles[..])
      && forall k :: 0 <= k < MAX_PLAYERS && players[k].hp > 0 ==> respawnT[k] == 0
    }

    ghost function Now(): (s: Slots)
      reads tiles, players, respawnT
    {
      Slots(tiles[..], players[..], respawnT[..])
    }

    ghost function Fighting(): Field
      reads shots, creatures, players
    {
      Field(shots[..], creatures[..], players[..])
    }

    ghost function Hunting(): Hunt
      reads creatures, players, respawnT
    {
      Hunt(creatures[..], players[..], respawnT[..])
    }

    ghost function Whole(): Scene
      reads this, tiles, players, creatures, shots, fireCd, respawnT
    {
      Scene(tiles[..], players[..], creatures[..], shots[..], fireCd[..], respawnT[..], tick)
    }

    /** Everything alive stands inside the region that map generation kept. */
    ghost predicate AllAtHome()
      reads this, players, creatures, shots
    {
      && (forall i :: 0 <= i < players.Length && players[i].alive ==> Cell(players[i].x, players[i].y) in home)
      && (forall i :: 0 <= i < creatures.Length && creatures[i].alive ==> Cell(creatures[i].x, creatures[i].y) in home)
      && (forall i :: 0 <= i < shots.Length && shots[i].alive ==> Cell(shots[i].x, shots[i].y) in home)
    }

    lemma ValidIsAtHome()
      requires Valid() && Floor(tiles[..]) == home
      ensures AllAtHome()
    {
      forall i | 0 <= i < players.Length && players[i].alive ensures Cell(players[i].x, players[i].y) in home {
        OnFloorIsMember(tiles[..], players[..][i].x, players[..][i].y);
      }
      forall i | 0 <= i < creatures.Length && creatures[i].alive ensures Cell(creatures[i].x, creatures[i].y) in home {
        OnFloorIsMember(tiles[..], creatures[..][i].x, creatures[..][i].y);
      }
      forall i | 0 <= i < shots.Length && shots[i].alive ensures Cell(shots[i].x, shots[i].y) in home {
        OnFloorIsMember(tiles[..], shots[..][i].x, shots[..][i].y);
      }
    }

    /** game_init: a map, and a creature wherever its draws find floor. */
    constructor (noise: seq<nat>, spots: seq<seq<Spot>>)
      requires |noise| == CELLS && |spots| == MAX_CREATURES && forall k :: 0 <= k < |spots| ==> |spots[k]| == TRIES
      ensures Valid() && fresh(tiles) && fresh(players) && fresh(creatures) && fresh(shots) && fresh(fireCd)
              && fresh(respawnT)
      ensures Largest(Passes(Seeded(noise), 4), home) && Keeps(Passes(Seeded(noise), 4), tiles[..], home)
      ensures Floor(tiles[..]) == home && Plain(tiles[..]) && tick == 0
      ensures forall k :: 0 <= k < MAX_CREATURES ==> Spawned(tiles[..], spots[k], creatures[k])
      ensures forall k :: 0 <= k < MAX_PLAYERS ==> Vacant(players[k], respawnT[k])
    {
      tiles := new Tile[CELLS];
      players := new Player[MAX_PLAYERS](_ => Player(0, 0, 0, false, 0, 0, 0));
      creatures := new Creature[MAX_CREATURES](_ => Creature(0, 0, 0, false));
      shots := new Shot[MAX_SHOTS](_ => Shot(0, 0, 0, false, 0, 0));
      fireCd := new nat[MAX_PLAYERS](_ => 0);
      respawnT := new nat[MAX_PLAYERS](_ => 0);
      tick := 0;
      new;
      hide Largest, Passes, Keeps;
      ghost var keep := GenMap(tiles, noise);
      home := keep;
      PlaceCreatures(spots);
    }

    method PlaceCreatures(spots: seq<seq<Spot>>)
      requires Valid() && |spots| == MAX_CREATURES && forall k :: 0 <= k < |spots| ==> |spots[k]| == TRIES
      requires forall k :: 0 <= k < MAX_CREATURES ==> !creatures[k].alive
      modifies creatures
      ensures Valid()
      ensures forall k :: 0 <= k < MAX_CREATURES ==> Spawned(tiles[..], spots[k], creatures[k])
    {
      for i := 0 to MAX_CREATURES
        invariant Valid()
        invariant forall k :: 0 <= k < i ==> Spawned(tiles[..], spots[k], creatures[k])
        invariant forall k :: i <= k < MAX_CREATURES ==> !creatures[k].alive
      {
        var ok, x, y := RandomFloor(tiles, spots[i]);
        if ok {
          creatures[i] := creatures[i].(x := x, y := y, kind := 0, alive := true);
        }
      }
    }

    /** game_add_player: the first slot that is dead, without health and not waiting. */
    method AddPlayer(draws: seq<Spot>) returns (slot: int)
      requires Valid() && |draws| == TRIES
      modifies players
      ensures Valid() && -1 <= slot < MAX_PLAYERS
      ensures slot >= 0 ==>
        && old(Vacant(players[slot], respawnT[slot]))
        && forall k :: 0 <= k < slot ==> !old(Vacant(players[k], respawnT[k]))
      ensures slot >= 0 ==> FirstFloor(tiles[..], draws, players[slot].x, players[slot].y)
      ensures slot >= 0 ==> players[slot] == Player(players[slot].x, players[slot].y, 4, true, PLAYER_HP, IN_NONE, 0)
      ensures slot < 0 ==>
        || (forall k :: 0 <= k < MAX_PLAYERS ==> !old(Vacant(players[k], respawnT[k])))
        || NoneBefore(tiles[..], draws, TRIES)
      ensures forall k :: 0 <= k < MAX_PLAYERS && k != slot ==> players[k] == old(players[k])
    {
      for i := 0 to MAX_PLAYERS
        invariant players[..] == old(players[..])
        invariant forall k :: 0 <= k < i ==> !old(Vacant(players[k], respawnT[k]))
      {
        var p := players[i];
        if !p.alive && p.hp == 0 && respawnT[i] == 0 {
          var ok, x, y := RandomFloor(tiles, draws);
          if !ok {
            return -1;
          }
          players[i] := Player(x, y, 4, true, PLAYER_HP, IN_NONE, 0);
          return i;
        }
      }
      slot := -1;
    }

    /** game_set_input. */
    method SetInput(player: int, input: Byte)
      requires Valid()
      modifies players
      ensures Valid()
      ensures forall k :: 0 <= k < MAX_PLAYERS ==>
                players[k] == if k == player then old(players[k]).(input := input) else old(players[k])
    {
      if 0 <= player < MAX_PLAYERS {
        players[player] := players[player].(input := input);
      }
    }

    /** gserver_service when a connection is lost: the player of that connection is dead at
        once, and keeps its health. */
    method Leave(player: int)
      requires Valid() && player < MAX_PLAYERS
      modifies players
      ensures Valid()
      ensures forall k :: 0 <= k < MAX_PLAYERS ==>
                players[k] == if k == player then old(players[k]).(alive := false) else old(players[k])
      ensures player >= 0 && old(players[player]).alive ==> Abandoned(players[player], respawnT[player])
    {
      if player >= 0 {
        players[player] := players[player].(alive := false);
      }
    }

    /** The first free shot slot, if there is one, takes the new shot. */
    method Fire(i: nat, dir: Byte)
      requires Valid() && i < MAX_PLAYERS && players[i].alive && dir < 8
      modifies shots, fireCd
      ensures Valid()
      ensures var at := FirstIdle(old(shots[..]), 0);
        if at < MAX_SHOTS then
          && shots[..] == old(shots[..])[at := Shot(players[i].x, players[i].y, dir, true, i, SHOT_RANGE)]
          && fireCd[..] == old(fireCd[..])[i := FIRE_CD]
        else shots[..] == old(shots[..]) && fireCd[..] == old(fireCd[..])
    {
      ghost var ss := shots[..];
      for s := 0 to MAX_SHOTS
        invariant Valid() && shots[..] == ss && fireCd[..] == old(fireCd[..])
        invariant FirstIdle(ss, 0) >= s
      {
        if !shots[s].alive {
          assert !ss[s].alive;
          var sh := Shot(players[i].x, players[i].y, dir, true, i, SHOT_RANGE);
          shots[s] := sh;
          fireCd[i] := FIRE_CD;
          return;
        }
        assert ss[s].alive;
      }
    }

    /** The body of step_players for one living player: walk, pick up, fire. */
    method StepPlayer(i: nat)
      requires Valid() && i < MAX_PLAYERS && players[i].alive
      modifies tiles, players, shots, fireCd
      ensures Valid() && Collected(old(tiles[..]), tiles[..])
      ensures tiles[..] == WalkTiles(old(tiles[..]), old(players[i]))
      ensures players[..] == old(players[..])[i := WalkTo(old(tiles[..]), old(players[i]))]
      ensures shots[..] == Fired(old(shots[..]), players[i], old(fireCd[i]), i)
      ensures fireCd[..] == old(fireCd[..])[i := Cooled(old(shots[..]), players[i], old(fireCd[i]))]
    {
      hide WalkTo, WalkTiles;
      if fireCd[i] > 0 {
        fireCd[i] := fireCd[i] - 1;
      }
      Walk(i);
      var fdir := players[i].input / 16;
      if fdir < 8 && fireCd[i] == 0 {
        Fire(i, fdir);
      }
    }

    method Walk(i: nat)
      requires Valid() && i < MAX_PLAYERS && players[i].alive
      modifies tiles, players
      ensures Valid() && Collected(old(tiles[..]), tiles[..])
      ensures tiles[..] == WalkTiles(old(tiles[..]), old(players[i]))
      ensures players[..] == old(players[..])[i := WalkTo(old(tiles[..]), old(players[i]))] && players[i].alive
      ensures players[i].input == old(players[i].input)
    {
      var p := players[i];
      var dir := p.input % 16;
      if dir >= 8 {
        return;
      }
      Directions(dir);
      var nx, ny := (p.x as int) + DX[dir], (p.y as int) + DY[dir];
      ghost var t := tiles[..];
      var p' := p.(facing := dir);
      if OnFloor(tiles[..], nx, ny) {
        p' := p'.(x := nx, y := ny);
        if tiles[Cell(nx, ny)] == T_TREASURE {
          tiles[Cell(nx, ny)] := T_FLOOR;
          p' := p'.(score := (p'.score + 25) % 0x1_0000);
        }
      }
      assert p' == WalkTo(t, p) && tiles[..] == WalkTiles(t, p);
      assert Collected(t, tiles[..]);
      CollectedKeeps(t, tiles[..], players[..], creatures[..], shots[..]);
      players[i] := p';
    }

    /** step_players: the living walk and fire one after the other; the dead stay. */
    method StepPlayers()
      requires Valid()
      modifies tiles, players, shots, fireCd
      ensures Valid() && Collected(old(tiles[..]), tiles[..])
      ensures tiles[..] == TilesAfter(old(tiles[..]), old(players[..]), MAX_PLAYERS)
      ensures forall k :: 0 <= k < MAX_PLAYERS ==> players[k] == Walked(old(tiles[..]), old(players[..]), k)
      ensures shots[..] == ShotsAfter(old(shots[..]), old(tiles[..]), old(players[..]), old(fireCd[..]), MAX_PLAYERS)
      ensures forall k :: 0 <= k < MAX_PLAYERS ==>
        fireCd[k] == CooledAt(old(shots[..]), old(tiles[..]), old(players[..]), old(fireCd[..]), k)
      ensures forall k :: 0 <= k < MAX_PLAYERS ==> OneStep(old(players[k]), players[k])
    {
      hide Fired, Cooled, OneStep, WalkTo, WalkTiles;
      ghost var t, ps, ss, cds := tiles[..], players[..], shots[..], fireCd[..];
      for i := 0 to MAX_PLAYERS
        invariant Valid() && Collected(t, tiles[..])
        invariant tiles[..] == TilesAfter(t, ps, i) && shots[..] == ShotsAfter(ss, t, ps, cds, i)
        invariant forall k :: 0 <= k < i ==> players[k] == Walked(t, ps, k) && fireCd[k] == CooledAt(ss, t, ps, cds, k)
        invariant forall k :: i <= k < MAX_PLAYERS ==> players[k] == ps[k] && fireCd[k] == cds[k]
      {
        if players[i].alive {
          StepPlayer(i);
        }
      }
      forall k | 0 <= k < MAX_PLAYERS ensures OneStep(ps[k], players[k]) {
        WalkIsOneStep(TilesAfter(t, ps, k), ps[k]);
      }
    }

    /** Creature `c` dies and the owner of the shot scores. */
    method Kill(c: nat, owner: nat)
      requires Valid() && c < MAX_CREATURES && creatures[c].alive && owner < MAX_PLAYERS
      modifies creatures, players
      ensures Valid()
      ensures forall k :: 0 <= k < MAX_PLAYERS ==> players[k] == old(players[k]).(score := players[k].score)
      ensures Fair(old(players[..]), players[..], old(creatures[..]), creatures[..])
      ensures creatures[..] == old(creatures[..])[c := old(creatures[c]).(alive := false)]
      ensures players[..] ==
              old(players[..])[owner := old(players[owner]).(score := (old(players[owner].score) + 10) % 0x1_0000)]
    {
      ghost var ps, cs := players[..], creatures[..];
      var dead := creatures[c].(alive := false);
      var p := players[owner].(score := (players[owner].score + 10) % 0x1_0000);
      KillOne(cs, c, dead);
      ScoreOne(ps, owner, p);
      creatures[c] := dead;
      players[owner] := p;
      assert creatures[..] == cs[c := dead] && players[..] == ps[owner := p];
    }

    /** One move of a living shot: it dies on a wall, on a creature or at its range. */
    method MoveShot(s: nat)
      requires Valid() && s < MAX_SHOTS && shots[s].alive
      modifies shots, creatures, players
      ensures Valid()
      ensures forall k :: 0 <= k < MAX_PLAYERS ==> players[k] == old(players[k]).(score := players[k].score)
      ensures Fair(old(players[..]), players[..], old(creatures[..]), creatures[..])
      ensures Fighting() == Moved(tiles[..], old(Fighting()), s)
    {
      var sh := shots[s];
      Directions(sh.dir);
      var nx, ny := (sh.x as int) + DX[sh.dir], (sh.y as int) + DY[sh.dir];
      FairStart(players[..], creatures[..]);
      hide Fair, Moved;
      ghost var f := Fighting();
      if !OnFloor(tiles[..], nx, ny) {
        shots[s] := sh.(alive := false);
        StopsAtWall(tiles[..], f, s);
        return;
      }
      sh := sh.(x := nx, y := ny);
      var c := CreatureAt(creatures, nx, ny);
      if c >= 0 {
        HitsFirst(tiles[..], f, s, c);
        Kill(c, sh.owner);
        shots[s] := sh.(alive := false);
        return;
      }
      FliesOn(tiles[..], f, s);
      shots[s] := if sh.ttl == 0 then sh.(alive := false) else sh.(ttl := sh.ttl - 1);
    }

    /** step_shots: every living shot moves up to twice; each creature lost scores ten. */
    method StepShots()
      requires Valid()
      modifies shots, creatures, players
      ensures Valid()
      ensures forall k :: 0 <= k < MAX_PLAYERS ==> players[k] == old(players[k]).(score := players[k].score)
      ensures Fair(old(players[..]), players[..], old(creatures[..]), creatures[..])
      ensures Fighting() == Flights(tiles[..], old(Fighting()), MAX_SHOTS)
    {
      FairStart(players[..], creatures[..]);
      ghost var t, f0 := tiles[..], Fighting();
      hide Moved;
      for s := 0 to MAX_SHOTS
        invariant Valid() && Fighting() == Flights(t, f0, s)
        invariant forall k :: 0 <= k < MAX_PLAYERS ==> players[k] == old(players[k]).(score := players[k].score)
        invariant Fair(old(players[..]), players[..], old(creatures[..]), creatures[..])
      {
        var step := 0;
        ghost var f := Fighting();
        while step < SHOT_SPEED && shots[s].alive
          invariant Valid() && step <= SHOT_SPEED
          invariant Flight(t, Fighting(), s, SHOT_SPEED - step) == Flight(t, f, s, SHOT_SPEED)
          invariant forall k :: 0 <= k < MAX_PLAYERS ==> players[k] == old(players[k]).(score := players[k].score)
          invariant Fair(old(players[..]), players[..], old(creatures[..]), creatures[..])
          decreases SHOT_SPEED - step
        {
          ghost var ps, cs := players[..], creatures[..];
          MoveShot(s);
          FairTrans(old(players[..]), ps, players[..], old(creatures[..]), cs, creatures[..]);
          step := step + 1;
        }
      }
    }

    /** An adjacent creature hits player `p`. */
    method Attack(p: nat)
      requires Valid() && p < MAX_PLAYERS && players[p].alive
      modifies players, respawnT
      ensures Valid()
      ensures forall k :: 0 <= k < MAX_PLAYERS && k != p ==> players[k] == old(players[k])
      ensures players[p] == old(players[p]).(alive := old(players[p].hp) > CREATURE_DMG,
              hp := old(players[p].hp) - CREATURE_DMG)
      ensures forall k :: 0 <= k < MAX_PLAYERS && k != p ==> respawnT[k] == old(respawnT[k])
      ensures forall k :: 0 <= k < MAX_PLAYERS ==> Hurt(old(players[k]), players[k])
      ensures respawnT[p] == if players[p].alive then old(respawnT[p]) else RESPAWN_T
    {
      var pl := players[p];
      if pl.hp > CREATURE_DMG {
        players[p] := pl.(hp := pl.hp - CREATURE_DMG);
      } else {
        players[p] := pl.(hp := 0, alive := false);
        respawnT[p] := RESPAWN_T;
      }
    }

    /** Creature `i` steps towards (dx, dy), or slides along one axis if that is blocked. */
    method Approach(i: nat, dx: int, dy: int)
      requires Valid() && i < MAX_CREATURES && creatures[i].alive && !(dx == 0 && dy == 0)
      modifies creatures
      ensures Valid()
      ensures forall k :: 0 <= k < MAX_CREATURES && k != i ==> creatures[k] == old(creatures[k])
      ensures Went(tiles[..], old(creatures[..]), old(creatures[i]), creatures[i], dx, dy)
    {
      var x, y := Target(i, dx, dy);
      creatures[i] := creatures[i].(x := x, y := y);
    }

    /** Where creature `i` goes. */
    method Target(i: nat, dx: int, dy: int) returns (x: Byte, y: Byte)
      requires Valid() && i < MAX_CREATURES && creatures[i].alive && !(dx == 0 && dy == 0)
      ensures OnFloor(tiles[..], x, y)
      ensures Went(tiles[..], creatures[..], creatures[i], creatures[i].(x := x, y := y), dx, dy)
    {
      var c := creatures[i];
      assert OnFloor(tiles[..], c.x, c.y) by { assert creatures[..][i].alive; }
      hide Valid;
      var dir := VecToDir(dx, dy);
      var nx, ny := (c.x as int) + DX[dir], (c.y as int) + DY[dir];
      var free := Free(nx, ny);
      if free {
        return nx, ny;
      }
      var sx, sy := (c.x as int) + Sgn(dx), (c.y as int) + Sgn(dy);
      free := Free(sx, c.y);
      if free {
        return sx, c.y;
      }
      free := Free(c.x, sy);
      if free {
        return c.x, sy;
      }
      return c.x, c.y;
    }

    method Free(x: int, y: int) returns (free: bool)
      requires tiles.Length == CELLS
      ensures free <==> Clear(tiles[..], creatures[..], x, y)
    {
      var blocked := CreatureAt(creatures, x, y);
      free := OnFloor(tiles[..], x, y) && blocked < 0;
      if blocked >= 0 { assert Stands(creatures[..][blocked], x, y); }
    }

    /** The turn of a living creature: it hits the nearest player or goes towards it. */
    method StepCreature(i: nat)
      requires Valid() && i < MAX_CREATURES && creatures[i].alive
      modifies creatures, players, respawnT
      ensures Valid()
      ensures HuntOk(old(Hunting())) && i < |old(Hunting()).creatures|
      ensures Hunting() == TurnOf(tiles[..], old(Hunting()), i)
      ensures forall k :: 0 <= k < MAX_CREATURES && k != i ==> creatures[k] == old(creatures[k])
      ensures forall k :: 0 <= k < MAX_PLAYERS ==> Hurt(old(players[k]), players[k])
      ensures forall k :: 0 <= k < MAX_PLAYERS && !old(players[k].alive) ==> respawnT[k] == old(respawnT[k])
      ensures forall k :: 0 <= k < MAX_PLAYERS && old(players[k].alive) && !players[k].alive ==>
                respawnT[k] == RESPAWN_T
      ensures creatures[i].alive && Closer(old(creatures[i]), creatures[i], old(players[..]))
    {
      var p := NearestPlayer(players, creatures[i].x, creatures[i].y);
      ghost var h := Hunting();
      if p < 0 {
        return;
      }
      assert Nearest(h.players, h.creatures[i].x, h.creatures[i].y, p);
      assert h.players[p].hp > 0;
      hide Nearest, Valid, Closer, TurnAt, TurnOf, Hurt;
      TurnIs(tiles[..], h, i, p);
      TurnMeans(tiles[..], h, i, p);
      TakeTurn(i, p);
      SlotsOfHunt();
    }

    lemma SlotsOfHunt()
      ensures forall k :: 0 <= k < players.Length ==> Hunting().players[k] == players[k]
      ensures forall k :: 0 <= k < creatures.Length ==> Hunting().creatures[k] == creatures[k]
      ensures forall k :: 0 <= k < respawnT.Length ==> Hunting().waits[k] == respawnT[k]
    {}

    /** The turn of creature `i` when its nearest player is `p`. */
    method TakeTurn(i: nat, p: nat)
      requires Valid() && i < MAX_CREATURES && creatures[i].alive && p < MAX_PLAYERS && players[p].alive
      modifies creatures, players, respawnT
      ensures Valid()
      ensures HuntOk(old(Hunting())) && i < |old(Hunting()).creatures| && p < |old(Hunting()).players|
      ensures Hunting() == TurnAt(tiles[..], old(Hunting()), i, p)
    {
      var dx := (players[p].x as int) - creatures[i].x;
      var dy := (players[p].y as int) - creatures[i].y;
      ghost var h := Hunting();
      hide Valid, Went, Gone, Hurt;
      if -1 <= dx <= 1 && -1 <= dy <= 1 {
        Attack(p);
        assert creatures[..] == h.creatures;
      } else {
        Approach(i, dx, dy);
        assert players[..] == h.players && respawnT[..] == h.waits;
        WentIsGone(tiles[..], h.creatures, h.creatures[i], creatures[i], dx, dy);
        assert creatures[..] == h.creatures[i := creatures[i]];
      }
    }

    /** step_creatures: on even ticks each living creature has its turn. */
    method StepCreatures()
      requires Valid()
      modifies creatures, players, respawnT
      ensures Valid()
      ensures forall k :: 0 <= k < MAX_CREATURES ==> creatures[k].alive == old(creatures[k].alive)
      ensures forall k :: 0 <= k < MAX_CREATURES ==> Closer(old(creatures[k]), creatures[k], old(players[..]))
      ensures forall k :: 0 <= k < MAX_PLAYERS ==> Hurt(old(players[k]), players[k])
      ensures forall k :: 0 <= k < MAX_PLAYERS && !old(players[k].alive) ==> respawnT[k] == old(respawnT[k])
      ensures forall k :: 0 <= k < MAX_PLAYERS && old(players[k].alive) && !players[k].alive ==>
                respawnT[k] == RESPAWN_T
      ensures HuntOk(old(Hunting())) && |old(Hunting()).creatures| == MAX_CREATURES
      ensures Hunting() == if tick % 2 == 1 then old(Hunting()) else Turns(tiles[..], old(Hunting()), MAX_CREATURES)
    {
      if tick % 2 == 1 {
        return;
      }
      hide TurnOf, Closer, Hurt, Turns;
      ghost var h := Hunting();
      NextTurn(tiles[..], h, 0);
      for i := 0 to MAX_CREATURES
        invariant Valid() && Hunting() == Turns(tiles[..], h, i)
        invariant forall k :: 0 <= k < i ==> creatures[k].alive == old(creatures[k].alive)
        invariant forall k :: 0 <= k < i ==> Closer(old(creatures[k]), creatures[k], old(players[..]))
        invariant forall k :: i <= k < MAX_CREATURES ==> creatures[k] == old(creatures[k])
        invariant forall k :: 0 <= k < MAX_PLAYERS ==> Hurt(old(players[k]), players[k])
        invariant forall k :: 0 <= k < MAX_PLAYERS && !old(players[k].alive) ==> respawnT[k] == old(respawnT[k])
        invariant forall k :: 0 <= k < MAX_PLAYERS && old(players[k].alive) && !players[k].alive ==>
                    respawnT[k] == RESPAWN_T
      {
        NextTurn(tiles[..], h, i);
        if creatures[i].alive {
          ghost var ps := players[..];
          StepCreature(i);
          CloserThen(old(creatures[i]), creatures[i], old(players[..]), ps);
        }
      }
    }

    /** step_respawns with one list of draws per player. */
    method StepRespawns(draws: seq<seq<Spot>>)
      requires Valid() && DrawsOk(draws)
      modifies players, respawnT
      ensures Valid()
      ensures forall k :: 0 <= k < MAX_PLAYERS ==>
              Waited(tiles[..], draws[k], old(players[k]), players[k], old(respawnT[k]), respawnT[k])
    {
      for i := 0 to MAX_PLAYERS
        invariant Valid()
        invariant forall k :: 0 <= k < i ==>
                  Waited(tiles[..], draws[k], old(players[k]), players[k], old(respawnT[k]), respawnT[k])
        invariant forall k :: i <= k < MAX_PLAYERS ==> players[k] == old(players[k]) && respawnT[k] == old(respawnT[k])
      {
        if !players[i].alive && respawnT[i] > 0 {
          respawnT[i] := respawnT[i] - 1;
          if respawnT[i] == 0 {
            var ok, x, y := RandomFloor(tiles, draws[i]);
            if ok {
              players[i] := players[i].(x := x, y := y, alive := true, hp := PLAYER_HP);
            }
          }
        }
      }
    }

    /** game_tick. */
    method Tick(draws: seq<seq<Spot>>)
      requires Valid() && DrawsOk(draws)
      modifies this`tick, tiles, players, creatures, shots, fireCd, respawnT
      ensures Valid() && Collected(old(tiles[..]), tiles[..])
      ensures Floor(tiles[..]) == Floor(old(tiles[..]))
      ensures tick == (old(tick) + 1) % 0x1_0000
      ensures SceneOk(old(Whole())) && tiles[..] == Trodden(old(Whole())) && shots[..] == Flown(old(Whole())).shots
      ensures creatures[..] == Fought(old(Whole())).creatures
      ensures forall k :: 0 <= k < MAX_PLAYERS ==>
        && fireCd[k] == CooledAt(old(shots[..]), old(tiles[..]), old(players[..]), old(fireCd[..]), k)
        && Waited(tiles[..], draws[k], Fought(old(Whole())).players[k], players[k], Fought(old(Whole())).waits[k],
                  respawnT[k])
      ensures forall k :: 0 <= k < MAX_PLAYERS && old(players[k].alive) ==>
              Placed(players[k], Walked(old(tiles[..]), old(players[..]), k))
      ensures forall k :: 0 <= k < MAX_PLAYERS ==>
              Ticked(tiles[..], draws[k], old(players[k]), players[k], old(respawnT[k]), respawnT[k])
      ensures forall k :: 0 <= k < MAX_PLAYERS && !old(Vacant(players[k], respawnT[k])) ==>
              (Vacant(players[k], respawnT[k]) <==>
                 !old(players[k].alive) && old(respawnT[k]) == 1 && NoneBefore(tiles[..], draws[k], TRIES))
    {
      ghost var ps0, ws0 := players[..], respawnT[..];
      hide Valid, Hurt, Waited, OneStep, Ticked, Vacant, Closer, NoneBefore, Placed, Collected, Walked, Trodden, Flown,
           Turns, CooledAt;
      ValidWaits();
      ghost var ps1 := MoveAll();
      ValidWaits();
      ghost var ps2 := players[..];
      StepCreatures();
      ValidWaits();
      ghost var ps3, ws3 := players[..], respawnT[..];
      assert Hunting() == Fought(old(Whole()));
      StepRespawns(draws);
      ValidWaits();
      AllTicked(tiles[..], draws, ps0, ps1, ps2, ps3, players[..], ws0, ws3, respawnT[..]);
      NextTick();
    }

    method NextTick()
      requires Valid()
      modifies this`tick
      ensures Valid() && tick == (old(tick) + 1) % 0x1_0000
    {
      tick := (tick + 1) % 0x1_0000;
    }

    /** Players, then shots. */
    method MoveAll() returns (ghost ps: seq<Player>)
      requires Valid()
      modifies tiles, players, creatures, shots, fireCd
      ensures SceneOk(old(Whole())) && tiles[..] == Trodden(old(Whole())) && Fighting() == Flown(old(Whole()))
      ensures forall k :: 0 <= k < MAX_PLAYERS ==>
        fireCd[k] == CooledAt(old(shots[..]), old(tiles[..]), old(players[..]), old(fireCd[..]), k)
      ensures Valid() && Collected(old(tiles[..]), tiles[..]) && Floor(tiles[..]) == Floor(old(tiles[..]))
      ensures |ps| == MAX_PLAYERS && forall k :: 0 <= k < MAX_PLAYERS ==>
        && OneStep(old(players[k]), ps[k]) && ps[k] == Walked(old(tiles[..]), old(players[..]), k)
        && players[k] == ps[k].(score := players[k].score)
    {
      hide Walked, TilesAfter, ShotsAfter, Flights, OneStep, Fair, Collected;
      StepPlayers();
      CollectedKeeps(old(tiles[..]), tiles[..], players[..], creatures[..], shots[..]);
      ps := players[..];
      assert ps == AllWalked(old(tiles[..]), old(players[..]));
      StepShots();
    }

    lemma ValidWaits()
      requires Valid()
      ensures tiles.Length == CELLS && players.Length == MAX_PLAYERS == respawnT.Length
      ensures forall k :: 0 <= k < MAX_PLAYERS ==>
        (players[k].hp > 0 ==> respawnT[k] == 0) && (players[k].alive ==> players[k].hp > 0)
    {
      assert forall k :: 0 <= k < MAX_PLAYERS ==> players[..][k] == players[k];
    }
  }

  /** What Tick says of every slot. */
  ghost predicate SlotsTicked(t: seq<Tile>, draws: seq<seq<Spot>>, ps0: seq<Player>, ps1: seq<Player>, ps4: seq<Player>,
                              ws0: seq<nat>, ws4: seq<nat>)
    requires |t| == CELLS && DrawsOk(draws) && |ps0| == |ps1| == |ps4| == |ws0| == |ws4| == MAX_PLAYERS
  {
    forall k :: 0 <= k < MAX_PLAYERS ==>
      && Ticked(t, draws[k], ps0[k], ps4[k], ws0[k], ws4[k])
      && (ps0[k].alive ==> Placed(ps4[k], ps1[k]))
      && (!Vacant(ps0[k], ws0[k]) ==>
            (Vacant(ps4[k], ws4[k]) <==> !ps0[k].alive && ws0[k] == 1 && NoneBefore(t, draws[k], TRIES)))
  }

  lemma AllTicked(t: seq<Tile>, draws: seq<seq<Spot>>, ps0: seq<Player>, ps1: seq<Player>, ps2: seq<Player>,
                  ps3: seq<Player>, ps4: seq<Player>, ws0: seq<nat>, ws3: seq<nat>, ws4: seq<nat>)
    requires |t| == CELLS && DrawsOk(draws) && |ps0| == |ps1| == |ps2| == |ps3| == |ps4| == MAX_PLAYERS
    requires |ws0| == |ws3| == |ws4| == MAX_PLAYERS
    requires forall k :: 0 <= k < MAX_PLAYERS ==> OneStep(ps0[k], ps1[k])
    requires forall k :: 0 <= k < MAX_PLAYERS ==> ps2[k] == ps1[k].(score := ps2[k].score)
    requires forall k :: 0 <= k < MAX_PLAYERS ==> Hurt(ps2[k], ps3[k])
    requires forall k :: 0 <= k < MAX_PLAYERS ==>
      if ps2[k].alive && !ps3[k].alive then ws3[k] == RESPAWN_T else !ps2[k].alive ==> ws3[k] == ws0[k]
    requires forall k :: 0 <= k < MAX_PLAYERS ==> Waited(t, draws[k], ps3[k], ps4[k], ws3[k], ws4[k])
    requires forall k :: 0 <= k < MAX_PLAYERS ==> (ps0[k].hp > 0 ==> ws0[k] == 0) && (ps0[k].alive ==> ps0[k].hp > 0)
    requires forall k :: 0 <= k < MAX_PLAYERS ==> (ps4[k].hp > 0 ==> ws4[k] == 0) && (ps3[k].hp > 0 ==> ws3[k] == 0)
    ensures SlotsTicked(t, draws, ps0, ps1, ps4, ws0, ws4)
  {
    hide Hurt, Waited, OneStep, Ticked, Vacant, NoneBefore, Placed;
    forall k | 0 <= k < MAX_PLAYERS
      ensures Ticked(t, draws[k], ps0[k], ps4[k], ws0[k], ws4[k]) && (ps0[k].alive ==> Placed(ps4[k], ps1[k]))
      ensures !Vacant(ps0[k], ws0[k]) ==>
        (Vacant(ps4[k], ws4[k]) <==> !ps0[k].alive && ws0[k] == 1 && NoneBefore(t, draws[k], TRIES))
    {
      SlotTicked(t, draws[k], ps0[k], ps1[k], ps2[k], ps3[k], ps4[k], ws0[k], ws3[k], ws4[k]);
    }
  }

  /** The same place, facing the same way. */
  predicate Placed(p: Player, q: Player) { p.x == q.x && p.y == q.y && p.facing == q.facing }

  /** A slot through the four steps of a tick. */
  lemma SlotTicked(t: seq<Tile>, draws: seq<Spot>, p0: Player, p1: Player, p2: Player, p3: Player, p4: Player,
                   w0: nat, w3: nat, w4: nat)
    requires |t| == CELLS && |draws| == TRIES && OneStep(p0, p1) && p2 == p1.(score := p2.score) && Hurt(p2, p3)
    requires (if p2.alive && !p3.alive then w3 == RESPAWN_T else !p2.alive ==> w3 == w0)
    requires Waited(t, draws, p3, p4, w3, w4) && (p0.hp > 0 ==> w0 == 0) && (p0.alive ==> p0.hp > 0)
    requires (p4.hp > 0 ==> w4 == 0) && (p3.hp > 0 ==> w3 == 0)
    ensures Ticked(t, draws, p0, p4, w0, w4) && (p0.alive ==> Placed(p4, p1))
    ensures !Vacant(p0, w0) ==> (Vacant(p4, w4) <==> !p0.alive && w0 == 1 && NoneBefore(t, draws, TRIES))
  {
    hide NoneBefore, FirstFloor;
  }

  lemma WalkIsOneStep(t: seq<Tile>, p: Player)
    requires |t| == CELLS
    ensures OneStep(p, if p.alive then WalkTo(t, p) else p)
  {}

  predicate OneStep(p: Player, p': Player) {
    && p'.alive == p.alive && p'.hp == p.hp
    && (!p.alive ==> p' == p)
    && -1 <= p'.x - p.x as int <= 1 && -1 <= p'.y - p.y as int <= 1
  }

  /** A living player only loses health, and falls exactly when none is left. */
  predicate Hurt(p: Player, p': Player) {
    && p' == p.(hp := p'.hp, alive := p'.alive)
    && p'.hp <= p.hp
    && (!p.alive ==> p' == p)
    && (p.alive && !p'.alive ==> p'.hp == 0)
  }

  lemma NobodyHurt(ps: seq<Player>)
    ensures forall k :: 0 <= k < |ps| ==> Hurt(ps[k], ps[k])
  {}

  /** Players that fell since were alive before, in the same place. */
  lemma CloserThen(c: Creature, c': Creature, ps: seq<Player>, ps1: seq<Player>)
    requires |ps| == |ps1| && (forall k :: 0 <= k < |ps| ==> Hurt(ps[k], ps1[k])) && Closer(c, c', ps1)
    ensures Closer(c, c', ps)
  {
    if c' != c {
      var p :| 0 <= p < |ps1| && ps1[p].alive && Toward(c.x, c'.x, ps1[p].x) && Toward(c.y, c'.y, ps1[p].y);
      assert Hurt(ps[p], ps1[p]);
    }
  }

  /** Ten points, counted modulo 2^16 over all players, for every creature lost. */
  predicate Fair(ps: seq<Player>, ps': seq<Player>, cs: seq<Creature>, cs': seq<Creature>) {
    && AliveCount(cs') <= AliveCount(cs)
    && (TotalScore(ps') - TotalScore(ps) - 10 * (AliveCount(cs) - AliveCount(cs'))) % 0x1_0000 == 0
  }

  lemma FairStart(ps: seq<Player>, cs: seq<Creature>)
    ensures Fair(ps, ps, cs, cs)
  {}

  lemma FairTrans(ps: seq<Player>, ps1: seq<Player>, ps2: seq<Player>,
                  cs: seq<Creature>, cs1: seq<Creature>, cs2: seq<Creature>)
    requires Fair(ps, ps1, cs, cs1) && Fair(ps1, ps2, cs1, cs2)
    ensures Fair(ps, ps2, cs, cs2)
  {
    hide AliveCount, TotalScore;
  }

  /** What a server does with a running world. */
  datatype Command =
    | DoTick(draws: seq<seq<Spot>>)
    | Join(spots: seq<Spot>)
    | Input(player: int, input: Byte)
    | Lost(player: int)

  predicate DrawsOk(draws: seq<seq<Spot>>) {
    |draws| == MAX_PLAYERS && forall k :: 0 <= k < |draws| ==> |draws[k]| == TRIES
  }

  predicate CommandOk(c: Command) {
    match c
    case DoTick(draws) => DrawsOk(draws)
    case Join(spots) => |spots| == TRIES
    case Input(_, _) => true
    case Lost(player) => player < MAX_PLAYERS
  }

  /** The player slots at one moment. */
  datatype Slots = Slots(tiles: seq<Tile>, players: seq<Player>, waits: seq<nat>)

  predicate Shaped(s: Slots) { |s.tiles| == CELLS && |s.players| == MAX_PLAYERS == |s.waits| }

  predicate Free(s: Slots, k: nat)
    requires Shaped(s) && k < MAX_PLAYERS
  {
    Vacant(s.players[k], s.waits[k])
  }

  /** The command ends the wait of the dead player in slot `k` without a place to put it. */
  predicate Frees(c: Command, s: Slots, s': Slots, k: nat)
    requires Shaped(s) && Shaped(s') && CommandOk(c) && k < MAX_PLAYERS
  {
    c.DoTick? && !s.players[k].alive && s.waits[k] == 1 && NoneBefore(s'.tiles, c.draws[k], TRIES)
  }

  /** One command: taken slots become free in that way only, free ones are taken by joins only. */
  predicate SlotStep(c: Command, s: Slots, s': Slots) {
    && Shaped(s) && Shaped(s') && CommandOk(c)
    && forall k :: 0 <= k < MAX_PLAYERS ==>
         if Free(s, k) then Free(s', k) || c.Join? else (Free(s', k) <==> Frees(c, s, s', k))
  }

  predicate Traced(commands: seq<Command>, log: seq<Slots>) {
    |log| == |commands| + 1 && forall j :: 0 <= j < |commands| ==> SlotStep(commands[j], log[j], log[j + 1])
  }

  /** A taken slot is free again at some later moment exactly when some tick ended the wait of
      its dead player with no floor drawn. That its connection was lost, while it was alive
      or while it waited, does not free it. */
  lemma FreedExactly(commands: seq<Command>, log: seq<Slots>, k: nat)
    requires Traced(commands, log) && k < MAX_PLAYERS && Shaped(log[0]) && !Free(log[0], k)
    ensures (exists j :: FreeAt(log, j, k)) <==> (exists j :: FreesAt(commands, log, j, k))
  {
    hide Vacant, NoneBefore;
    if j :| FreeAt(log, j, k) {
      var i := FirstFree(commands, log, k, j);
      assert FreesAt(commands, log, i, k);
    }
    if j :| FreesAt(commands, log, j, k) {
      assert FreeAt(log, j + 1, k);
    }
  }

  predicate FreeAt(log: seq<Slots>, j: int, k: nat)
    requires k < MAX_PLAYERS
  {
    0 <= j < |log| && Shaped(log[j]) && Free(log[j], k)
  }

  predicate FreesAt(commands: seq<Command>, log: seq<Slots>, j: int, k: nat)
    requires k < MAX_PLAYERS && |log| == |commands| + 1
  {
    0 <= j < |commands| && SlotStep(commands[j], log[j], log[j + 1]) && Frees(commands[j], log[j], log[j + 1], k)
  }

  lemma {:induction false} FirstFree(commands: seq<Command>, log: seq<Slots>, k: nat, n: nat) returns (i: nat)
    requires Traced(commands, log) && k < MAX_PLAYERS && Shaped(log[0]) && !Free(log[0], k)
    requires FreeAt(log, n, k)
    ensures i < n && FreesAt(commands, log, i, k)
  {
    hide Vacant, NoneBefore;
    i := n - 1;
    assert SlotStep(commands[i], log[i], log[i + 1]);
    if Free(log[i], k) { i := FirstFree(commands, log, k, n - 1); }
  }

  /** Any number of ticks, joins, inputs and lost connections in any order: the floor stays
      the region of map generation, every living thing is inside it, and a map without
      treasure never changes; `log` holds the slots before, between and after. */
  method PlayOn(w: World, commands: seq<Command>) returns (ghost log: seq<Slots>)
    requires w.Valid() && Floor(w.tiles[..]) == w.home
    requires forall k :: 0 <= k < |commands| ==> CommandOk(commands[k])
    modifies w`tick, w.tiles, w.players, w.creatures, w.shots, w.fireCd, w.respawnT
    ensures w.Valid() && w.home == old(w.home) && Floor(w.tiles[..]) == w.home
    ensures w.AllAtHome()
    ensures Plain(old(w.tiles[..])) ==> w.tiles[..] == old(w.tiles[..])
    ensures Traced(commands, log) && log[0] == old(w.Now()) && log[|commands|] == w.Now()
  {
    log := [w.Now()];
    for k := 0 to |commands|
      invariant w.Valid() && Floor(w.tiles[..]) == w.home
      invariant Plain(old(w.tiles[..])) ==> w.tiles[..] == old(w.tiles[..])
      invariant Traced(commands[..k], log) && log[0] == old(w.Now()) && log[k] == w.Now()
    {
      hide Traced, SlotStep;
      ghost var t, was := w.tiles[..], w.Now();
      Obey(w, commands[k]);
      if Plain(t) { PlainStays(t, w.tiles[..]); }
      TracedOn(commands[..k], log, commands[k], w.Now());
      assert commands[..k] + [commands[k]] == commands[..k + 1];
      log := log + [w.Now()];
    }
    assert commands[..|commands|] == commands;
    w.ValidIsAtHome();
  }

  lemma TracedOn(commands: seq<Command>, log: seq<Slots>, c: Command, s: Slots)
    requires Traced(commands, log) && SlotStep(c, log[|commands|], s)
    ensures Traced(commands + [c], log + [s])
  {
    hide SlotStep;
    forall j | 0 <= j <= |commands| ensures SlotStep((commands + [c])[j], (log + [s])[j], (log + [s])[j + 1]) {
      if j < |commands| { assert SlotStep(commands[j], log[j], log[j + 1]); }
    }
  }

  /** One command. */
  method Obey(w: World, c: Command)
    requires w.Valid() && CommandOk(c)
    modifies w`tick, w.tiles, w.players, w.creatures, w.shots, w.fireCd, w.respawnT
    ensures w.Valid() && Collected(old(w.tiles[..]), w.tiles[..]) && Floor(w.tiles[..]) == Floor(old(w.tiles[..]))
    ensures SlotStep(c, old(w.Now()), w.Now())
  {
    match c {
      case DoTick(draws) =>
        w.Tick(draws);
      case Join(spots) =>
        var slot := w.AddPlayer(spots);
      case Input(player, input) =>
        w.SetInput(player, input);
      case Lost(player) =>
        w.Leave(player);
    }
  }

  /** A connection lost while its player waits: when the count ends and a draw is floor, the
      player is back with full health and nobody to play it, and its slot is not free. */
  method LeftWaiting(w: World, player: nat, ticks: seq<seq<seq<Spot>>>, ghost lucky: nat)
    requires w.Valid() && player < MAX_PLAYERS && !w.players[player].alive && w.respawnT[player] == |ticks| > 0
    requires forall k :: 0 <= k < |ticks| ==> DrawsOk(ticks[k])
    requires DrawsOk(ticks[|ticks| - 1]) && lucky < TRIES && OnPlain(w.tiles[..], ticks[|ticks| - 1][player][lucky])
    modifies w`tick, w.tiles, w.players, w.creatures, w.shots, w.fireCd, w.respawnT
    ensures w.Valid() && w.players[player].alive && w.players[player].hp == PLAYER_HP
    ensures !Vacant(w.players[player], w.respawnT[player])
  {
    w.Leave(player);
    ghost var last := ticks[|ticks| - 1][player];
    for k := 0 to |ticks|
      invariant w.Valid() && OnPlain(w.tiles[..], last[lucky])
      invariant w.respawnT[player] == |ticks| - k
      invariant k < |ticks| ==> !w.players[player].alive
      invariant k == |ticks| ==> w.players[player].alive && w.players[player].hp == PLAYER_HP
    {
      w.Tick(ticks[k]);
    }
  }

  predicate OnPlain(t: seq<Tile>, at: Spot)
    requires |t| == CELLS
  {
    t[Cell(at.0, at.1)] == T_FLOOR
  }

  /** A generated world after any commands: its tiles are still those that were generated, and
      any two living things are joined by a walk over them. */
  method Played(noise: seq<nat>, spots: seq<seq<Spot>>, commands: seq<Command>) returns (w: World)
    requires |noise| == CELLS && |spots| == MAX_CREATURES && forall k :: 0 <= k < |spots| ==> |spots[k]| == TRIES
    requires forall k :: 0 <= k < |commands| ==> CommandOk(commands[k])
    ensures w.Valid() && Largest(Passes(Seeded(noise), 4), w.home)
            && Keeps(Passes(Seeded(noise), 4), w.tiles[..], w.home)
    ensures w.AllAtHome()
    ensures forall a, b :: a in w.home && b in w.home ==> Reach(w.tiles[..], a, b)
  {
    hide Largest, Passes, Keeps, Seeded, Reach;
    w := new World(noise, spots);
    ghost var log := PlayOn(w, commands);
    FloorIsOneRegion(Passes(Seeded(noise), 4), w.tiles[..], w.home);
  }
}
