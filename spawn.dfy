/**
 * The spawn rules of `GameScene.create` (src/scenes/GameScene.js): four mask
 * pieces at drawn positions inside their segment's zone, and two or three
 * enemies per segment with drawn positions and a minimum speed per axis.
 * Every `Phaser.Math.Between(min, max)` draw is a parameter here, and the
 * ranges it is drawn from are preconditions.
 */
module Spawn {
  import opened SharedState

  /** A horizontal spawn zone `[minX, maxX]`. */
  datatype Zone = Zone(minX: int, maxX: int)
  {
    predicate Holds(x: int) { minX <= x <= maxX }
  }

  /** One entry of `maskConfigs`: the piece's name and its zone. */
  datatype MaskConfig = MaskConfig(name: MaskName, zone: Zone)

  const MaskConfigs: seq<MaskConfig> := [
    MaskConfig(Mask1, Zone(200, 750)),
    MaskConfig(Mask2, Zone(850, 1550)),
    MaskConfig(Mask3, Zone(1650, 2350)),
    MaskConfig(Mask4, Zone(2450, 3150))
  ]

  /** The `environments` table of enemy zones, one per segment. */
  const EnemyZones: seq<Zone> := [Zone(200, 750), Zone(850, 1550), Zone(1650, 2350), Zone(2450, 3150)]

  /** Vertical range of every spawn, `[50, 400]`. */
  const MinY: int := 50
  const MaxY: int := 400

  /** Range of each enemy velocity draw, `[-200, 200]`. */
  const MaxDrawnSpeed: int := 200
  /** Below this magnitude a drawn component is replaced. */
  const MinSpeed: int := 80
  /** The magnitude a too-slow component is replaced with. */
  const FixedSpeed: int := 100

  /** What the scene knows of a mask piece: its name, position and `active` flag. */
  datatype Mask = Mask(name: MaskName, x: int, y: int, active: bool)

  /** An enemy as spawned: position and velocity. */
  datatype Enemy = Enemy(x: int, y: int, vx: int, vy: int)

  /** The two draws for one mask piece. */
  datatype MaskDraw = MaskDraw(x: int, y: int)

  /** The four draws for one enemy. */
  datatype EnemyDraw = EnemyDraw(x: int, y: int, vx: int, vy: int)

  /**
   * All draws of one `create`: one per mask, and per segment one row of
   * enemy draws whose length is the `randomRange(2, 3)` count draw.
   */
  datatype SpawnDraws = SpawnDraws(masks: seq<MaskDraw>, enemies: seq<seq<EnemyDraw>>)

  predicate MaskDrawsInRange(d: seq<MaskDraw>) {
    |d| == |MaskConfigs| &&
    forall i :: 0 <= i < |d| ==> MaskConfigs[i].zone.Holds(d[i].x) && MinY <= d[i].y <= MaxY
  }

  predicate EnemyDrawInRange(zone: Zone, d: EnemyDraw) {
    zone.Holds(d.x) && MinY <= d.y <= MaxY &&
    -MaxDrawnSpeed <= d.vx <= MaxDrawnSpeed && -MaxDrawnSpeed <= d.vy <= MaxDrawnSpeed
  }

  predicate EnemyDrawsInRange(rows: seq<seq<EnemyDraw>>) {
    |rows| == |EnemyZones| &&
    forall e :: 0 <= e < |rows| ==>
      2 <= |rows[e]| <= 3 &&
      forall i :: 0 <= i < |rows[e]| ==> EnemyDrawInRange(EnemyZones[e], rows[e][i])
  }

  /** The ranges `Phaser.Math.Between` guarantees for every draw of one `create`. */
  predicate DrawsInRange(d: SpawnDraws) {
    MaskDrawsInRange(d.masks) && EnemyDrawsInRange(d.enemies)
  }

  function Abs(v: int): nat { if v < 0 then -v else v }

  /**
   * The minimum-speed fix-up of one drawn velocity component: a component
   * slower than 80 becomes 100 with the sign of the draw, 0 counting as
   * positive; any other component is kept.
   */
  function FixSpeed(v: int): (r: int)
    ensures MinSpeed <= Abs(r)
    ensures Abs(v) <= MaxDrawnSpeed ==> Abs(r) <= MaxDrawnSpeed
    ensures (r >= 0) == (v >= 0)
    ensures MinSpeed <= Abs(v) ==> r == v
    ensures Abs(v) < MinSpeed ==> Abs(r) == FixedSpeed
    ensures v == 0 ==> r == FixedSpeed
  {
    if Abs(v) < MinSpeed then (if v >= 0 then FixedSpeed else -FixedSpeed) else v
  }

  /** The enemy one draw produces. */
  function EnemyOf(d: EnemyDraw): Enemy {
    Enemy(d.x, d.y, FixSpeed(d.vx), FixSpeed(d.vy))
  }

  /** The masks `maskConfigs.forEach` creates, in configuration order. */
  function MasksOf(d: seq<MaskDraw>): seq<Mask>
    requires |d| == |MaskConfigs|
  {
    seq(|d|, i requires 0 <= i < |d| => Mask(MaskConfigs[i].name, d[i].x, d[i].y, true))
  }

  /** The enemies of one segment's row of draws. */
  function RowOf(row: seq<EnemyDraw>): seq<Enemy> {
    seq(|row|, i requires 0 <= i < |row| => EnemyOf(row[i]))
  }

  /** The enemies `environments.forEach` creates: segment by segment, in draw order. */
  function EnemiesOf(rows: seq<seq<EnemyDraw>>): seq<Enemy> {
    if rows == [] then [] else EnemiesOf(rows[..|rows| - 1]) + RowOf(rows[|rows| - 1])
  }

  /** The number of enemy draws in the first rows. */
  function Count(rows: seq<seq<EnemyDraw>>): nat {
    if rows == [] then 0 else Count(rows[..|rows| - 1]) + |rows[|rows| - 1]|
  }

  lemma {:induction false} EnemiesOfLength(rows: seq<seq<EnemyDraw>>)
    ensures |EnemiesOf(rows)| == Count(rows)
  {
    if rows != [] {
      EnemiesOfLength(rows[..|rows| - 1]);
    }
  }

  /**
   * Enemy `i` of segment `e` sits at offset `Count(rows[..e]) + i` of the
   * spawned list and is the fixed-up copy of its draw.
   */
  lemma {:induction false} EnemiesOfAt(rows: seq<seq<EnemyDraw>>, e: nat, i: nat)
    requires e < |rows| && i < |rows[e]|
    ensures Count(rows[..e]) + i < |EnemiesOf(rows)|
    ensures EnemiesOf(rows)[Count(rows[..e]) + i] == EnemyOf(rows[e][i])
  {
    var n := |rows| - 1;
    var front := rows[..n];
    EnemiesOfLength(rows);
    EnemiesOfLength(front);
    if e == n {
      assert rows[..e] == front;
    } else {
      assert front[..e] == rows[..e];
      EnemiesOfAt(front, e, i);
    }
  }

  /** Every segment contributes two or three enemies, so 8 to 12 in all. */
  lemma {:induction false} CountBounds(rows: seq<seq<EnemyDraw>>)
    requires forall e :: 0 <= e < |rows| ==> 2 <= |rows[e]| <= 3
    ensures 2 * |rows| <= Count(rows) <= 3 * |rows|
  {
    if rows != [] {
      CountBounds(rows[..|rows| - 1]);
    }
  }

  /**
   * The spawned enemies lie in their segment's zone and in `[50, 400]`, and
   * each velocity component has magnitude in `[80, 200]`.
   */
  lemma SpawnedEnemiesInRange(rows: seq<seq<EnemyDraw>>, e: nat, i: nat)
    requires EnemyDrawsInRange(rows)
    requires e < |rows| && i < |rows[e]|
    ensures Count(rows[..e]) + i < |EnemiesOf(rows)|
    ensures var en := EnemiesOf(rows)[Count(rows[..e]) + i];
      EnemyZones[e].Holds(en.x) && MinY <= en.y <= MaxY &&
      MinSpeed <= Abs(en.vx) <= MaxDrawnSpeed && MinSpeed <= Abs(en.vy) <= MaxDrawnSpeed
  {
    EnemiesOfAt(rows, e, i);
  }

  /** The mask loop: one piece per configuration, active, at its draw. */
  method SpawnMasks(d: seq<MaskDraw>) returns (masks: seq<Mask>)
    requires MaskDrawsInRange(d)
    ensures masks == MasksOf(d)
    ensures forall i :: 0 <= i < |masks| ==>
      masks[i].active && MaskConfigs[i].zone.Holds(masks[i].x) && MinY <= masks[i].y <= MaxY
  {
    masks := [];
    var i := 0;
    while i < |MaskConfigs|
      invariant 0 <= i <= |MaskConfigs|
      invariant masks == MasksOf(d)[..i]
    {
      var config := MaskConfigs[i];
      masks := masks + [Mask(config.name, d[i].x, d[i].y, true)];
      i := i + 1;
    }
  }

  /** The enemy loops: for each segment, as many enemies as its count draw. */
  method SpawnEnemies(rows: seq<seq<EnemyDraw>>) returns (enemies: seq<Enemy>)
    requires EnemyDrawsInRange(rows)
    ensures enemies == EnemiesOf(rows)
    ensures 2 * |EnemyZones| <= |enemies| <= 3 * |EnemyZones|
  {
    enemies := [];
    var e := 0;
    while e < |rows|
      invariant 0 <= e <= |rows|
      invariant enemies == EnemiesOf(rows[..e])
    {
      var row := rows[e];
      var i := 0;
      while i < |row|
        invariant 0 <= i <= |row|
        invariant enemies == EnemiesOf(rows[..e]) + RowOf(row)[..i]
      {
        var vx := FixSpeed(row[i].vx);
        var vy := FixSpeed(row[i].vy);
        enemies := enemies + [Enemy(row[i].x, row[i].y, vx, vy)];
        i := i + 1;
      }
      assert rows[..e + 1][..e] == rows[..e];
      e := e + 1;
    }
    assert rows[..e] == rows;
    EnemiesOfLength(rows);
    CountBounds(rows);
  }
}
