/**
 * The play-session controller of src/scenes/GameScene.js: per-tick steering,
 * paging of the camera over the four 800-px segments of the 3200-px world,
 * the two overlap handlers with their one-shot flags, the deferred scene
 * transitions, and `create`, which every restart runs again.
 */
module Session {
  import opened Host
  import opened Spawn
  import opened SharedState

  /** Player speed per axis, in pixels per second. */
  const Speed: int := 250
  /** Width of one segment; the camera shows exactly one. */
  const ScreenWidth: int := 800
  const WorldWidth: int := 3200
  const WorldHeight: int := 450
  /** Where `create` places the player. */
  const StartX: int := 100
  const StartY: int := 225
  /** The sprite `create` makes, at rest and facing right. */
  const NewPlayer: Sprite := Sprite(StartX, StartY, 0, 0, false)

  /** The names shown in the segment label, by page. */
  const EnvNames: seq<string> := ["Savannah", "Swamp", "Forest", "Mountain"]

  datatype Velocity = Velocity(vx: int, vy: int)

  /**
   * The velocity one tick's keys select: each axis on its own, left winning
   * over right and up over down, at full speed on both axes at once.
   */
  function Steer(keys: Keys): (v: Velocity)
    ensures v.vx in {-Speed, 0, Speed} && v.vy in {-Speed, 0, Speed}
    ensures v.vx == -Speed <==> keys.left
    ensures v.vx == Speed <==> !keys.left && keys.right
    ensures v.vy == -Speed <==> keys.up
    ensures v.vy == Speed <==> !keys.up && keys.down
  {
    var vx := if keys.left then -Speed else if keys.right then Speed else 0;
    var vy := if keys.up then -Speed else if keys.down then Speed else 0;
    Velocity(vx, vy)
  }

  /** The sprite's `flipX` after the tick: set by left, cleared by right, else kept. */
  function Facing(keys: Keys, flipped: bool): (f: bool)
    ensures keys.left ==> f
    ensures !keys.left && keys.right ==> !f
    ensures !keys.left && !keys.right ==> f == flipped
  {
    if keys.left then true else if keys.right then false else flipped
  }

  /** `Math.floor(x / 800)`: the page the player stands on (not clamped). */
  function Page(x: int): (p: int)
    ensures p * ScreenWidth <= x < (p + 1) * ScreenWidth
    ensures 0 <= x < WorldWidth ==> 0 <= p < |EnvNames|
  {
    x / ScreenWidth
  }

  /** `page * 800`: the camera offset that shows a page, always on a page boundary. */
  function PageOffset(page: int): (s: int)
    ensures s % ScreenWidth == 0
    ensures s / ScreenWidth == page
  {
    page * ScreenWidth
  }

  /** The camera offset of the player's page shows the player. */
  lemma PageShowsPlayer(x: int)
    ensures PageOffset(Page(x)) <= x < PageOffset(Page(x)) + ScreenWidth
  {
    var p := Page(x);
    assert PageOffset(p) == p * ScreenWidth;
  }

  /** `envNames[page] || 'Unknown'`. */
  function EnvLabel(page: int): (name: string)
    ensures 0 <= page < |EnvNames| ==> name == EnvNames[page]
    ensures !(0 <= page < |EnvNames|) ==> name == "Unknown"
  {
    if 0 <= page < |EnvNames| then EnvNames[page] else "Unknown"
  }

  /** A player inside the world always sees the name of a segment. */
  lemma LabelInWorld(x: int)
    requires 0 <= x < WorldWidth
    ensures EnvLabel(Page(x)) in EnvNames
    ensures EnvLabel(Page(x)) != "Unknown"
  {
  }

  /** The number of mask pieces already destroyed by a collection. */
  function Collected(masks: seq<Mask>): nat {
    if masks == [] then 0 else (if masks[0].active then 0 else 1) + Collected(masks[1..])
  }

  /** Deactivating one active piece raises the count by exactly one. */
  lemma {:induction false} CollectedDeactivate(masks: seq<Mask>, i: nat)
    requires i < |masks| && masks[i].active
    ensures Collected(masks[i := masks[i].(active := false)]) == Collected(masks) + 1
  {
    var after := masks[i := masks[i].(active := false)];
    if i == 0 {
      assert after[1..] == masks[1..];
    } else {
      assert after[1..] == masks[1..][i - 1 := masks[i].(active := false)];
      CollectedDeactivate(masks[1..], i - 1);
    }
  }

  /** The count reaches the number of pieces exactly when none is left active. */
  lemma {:induction false} CollectedBounds(masks: seq<Mask>)
    ensures Collected(masks) <= |masks|
    ensures Collected(masks) == |masks| <==> forall i :: 0 <= i < |masks| ==> !masks[i].active
    ensures Collected(masks) == 0 <==> forall i :: 0 <= i < |masks| ==> masks[i].active
  {
    if masks != [] {
      CollectedBounds(masks[1..]);
      assert forall i :: 1 <= i < |masks| ==> masks[i] == masks[1..][i - 1];
    }
  }

  /** The configured mask names are the record's flag names. */
  lemma MaskConfigNames()
    ensures |MaskConfigs| == |MaskNames|
    ensures forall i :: 0 <= i < |MaskConfigs| ==> MaskConfigs[i].name == MaskNames[i]
  {
  }

  /**
   * The scene's pieces agree with the record's counter and flags: one flag
   * per piece, set exactly for the destroyed ones, the counter equal to
   * their number, and `isCollecting` set exactly when none is left.
   */
  predicate Consistent(masks: seq<Mask>, pieces: int, flags: map<MaskName, bool>, collecting: bool) {
    && |masks| == |MaskNames|
    && (forall i :: 0 <= i < |masks| ==> masks[i].name == MaskNames[i])
    && flags.Keys == FreshFlags().Keys
    && (forall i :: 0 <= i < |masks| ==> flags[MaskNames[i]] == !masks[i].active)
    && pieces == Collected(masks)
    && (collecting <==> Collected(masks) == |masks|)
  }

  /** What `create` builds is consistent, with nothing collected. */
  lemma FreshConsistent(d: seq<MaskDraw>)
    requires |d| == |MaskConfigs|
    ensures Consistent(MasksOf(d), 0, FreshFlags(), false)
  {
    var masks := MasksOf(d);
    MaskConfigNames();
    CollectedBounds(masks);
  }

  /**
   * One accepted collection keeps the scene and the record consistent: the
   * counter rises by one, only that piece's flag changes, and collecting
   * begins exactly when the counter reaches the total.
   */
  lemma CollectConsistent(masks: seq<Mask>, pieces: int, flags: map<MaskName, bool>, i: nat)
    requires Consistent(masks, pieces, flags, false)
    requires i < |masks| && masks[i].active
    ensures Consistent(masks[i := masks[i].(active := false)], pieces + 1,
                       flags[masks[i].name := true], pieces + 1 >= TotalPieces)
    ensures pieces + 1 <= TotalPieces
  {
    var after := masks[i := masks[i].(active := false)];
    CollectedDeactivate(masks, i);
    CollectedBounds(masks);
    CollectedBounds(after);
    var flags' := flags[masks[i].name := true];
    forall j | 0 <= j < |after|
      ensures flags'[MaskNames[j]] == !after[j].active
    {
      if j != i {
        assert MaskNames[j] != MaskNames[i];
      }
    }
  }

  /** A deferred call scheduled with `this.time.delayedCall(1000, ...)`. */
  datatype Deferred = StartEndStory | RestartScene

  predicate NoRepeats(pending: seq<Deferred>) {
    forall i, j :: 0 <= i < j < |pending| ==> pending[i] != pending[j]
  }

  class GameScene {
    /** The shared `gameState` record the scene updates. */
    const state: GameState
    var masks: seq<Mask>
    var enemies: seq<Enemy>
    var isHit: bool
    var isCollecting: bool
    var player: Sprite
    var scrollX: int
    /** The segment name the HUD shows after "Env: ". */
    var envLabel: string
    /** Deferred calls not yet fired, in the order they fire (all wait 1000 ms). */
    var pending: seq<Deferred>
    /** False once `scene.start('EndStory')` has stopped the scene. */
    var running: bool

    /**
     * While the scene owns the record: the counter and the flags mirror the
     * destroyed pieces, `isCollecting` is set exactly when all four are
     * gone, each one-shot flag has its single deferred call, and the camera
     * sits on a page boundary.
     */
    ghost predicate Valid()
      reads this, state
    {
      Progress() && Schedule() && Placement()
    }

    ghost predicate Progress()
      reads this`masks, this`isCollecting, state`maskPieces, state`collectedMasks
    {
      Consistent(masks, state.maskPieces, state.collectedMasks, isCollecting)
    }

    /** Each one-shot flag stands for exactly one pending call until the scene stops. */
    ghost predicate Schedule()
      reads this`pending, this`running, this`isHit, this`isCollecting
    {
      && NoRepeats(pending)
      && (running ==> (StartEndStory in pending <==> isCollecting) && (RestartScene in pending <==> isHit))
      && (!running ==> pending == [])
    }

    ghost predicate Placement()
      reads this`scrollX, this`player
    {
      scrollX % ScreenWidth == 0 && 0 <= player.x < WorldWidth && 0 <= player.y < WorldHeight
    }

    /** The state `create` leaves behind for the given draws. */
    ghost predicate Fresh(draws: SpawnDraws)
      reads this, state
      requires |draws.masks| == |MaskConfigs|
    {
      Spawned(draws) && AtStart() && !isHit && pending == [] && running
    }

    /** The pieces and enemies of the draws, nothing collected. */
    ghost predicate Spawned(draws: SpawnDraws)
      reads this`masks, this`enemies, this`isCollecting, state`maskPieces, state`collectedMasks
      requires |draws.masks| == |MaskConfigs|
    {
      && masks == MasksOf(draws.masks)
      && enemies == EnemiesOf(draws.enemies)
      && !isCollecting
      && state.maskPieces == 0 && state.collectedMasks == FreshFlags()
    }

    /** The player at rest at the start, the camera on the first page. */
    ghost predicate AtStart()
      reads this`player, this`scrollX, this`envLabel
    {
      && player == NewPlayer
      && scrollX == 0 && envLabel == EnvNames[0]
    }

    /** The scene starting for the first time, which runs `create`. */
    constructor (state: GameState, draws: SpawnDraws)
      requires DrawsInRange(draws)
      modifies state`maskPieces, state`collectedMasks
      ensures this.state == state
      ensures Valid() && Fresh(draws)
    {
      this.state := state;
      masks, enemies := [], [];
      isHit, isCollecting := false, false;
      player := NewPlayer;
      scrollX, envLabel := 0, "";
      pending, running := [], true;
      new;
      Create(draws);
    }

    /**
     * `create`: spawns the pieces and enemies, resets the record's progress
     * and both flags, puts the player and camera back at the start. The
     * scene's clock starts empty, so no deferred call survives it.
     */
    method Create(draws: SpawnDraws)
      requires DrawsInRange(draws)
      modifies this, state`maskPieces, state`collectedMasks
      ensures Valid()
      ensures Fresh(draws)
    {
      Respawn(draws);
      ResetPlayer();
      isHit := false;
      pending := [];
      running := true;
    }

    /** The spawn part of `create` and the reset of the progress it shares with the record. */
    method Respawn(draws: SpawnDraws)
      requires DrawsInRange(draws)
      modifies this`masks, this`enemies, this`isCollecting, state`maskPieces, state`collectedMasks
      ensures Progress() && Spawned(draws)
    {
      masks := SpawnMasks(draws.masks);
      enemies := SpawnEnemies(draws.enemies);
      state.ResetMasks();
      isCollecting := false;
      FreshConsistent(draws.masks);
    }

    /** A new player sprite at the start, and the camera on the first page. */
    method ResetPlayer()
      modifies this`player, this`scrollX, this`envLabel
      ensures Placement() && AtStart()
    {
      player := NewPlayer;
      scrollX := 0;
      envLabel := "Savannah";
    }

    /**
     * The physics engine moving the player between ticks; world-bound
     * collision keeps it inside the world.
     */
    method MovePlayer(nx: int, ny: int)
      requires Valid() && running
      requires 0 <= nx < WorldWidth && 0 <= ny < WorldHeight
      modifies this`player
      ensures Valid()
      ensures player == old(player).(x := nx, y := ny)
    {
      player := player.(x := nx, y := ny);
    }

    /**
     * The body of `update` past its early return, up to the restart key:
     * velocity and facing from the keys, the camera on the player's page
     * (written only when it differs) and the segment label of that page.
     */
    method Steering(keys: Keys)
      requires Placement()
      modifies this`player, this`scrollX, this`envLabel
      ensures Placement()
      ensures player == old(player).(vx := Steer(keys).vx, vy := Steer(keys).vy,
                                     flipX := Facing(keys, old(player.flipX)))
      ensures scrollX == PageOffset(Page(player.x))
      ensures envLabel == EnvLabel(Page(player.x))
    {
      var v := Steer(keys);
      player := player.(vx := v.vx, vy := v.vy, flipX := Facing(keys, player.flipX));

      var page := Page(player.x);
      var target := PageOffset(page);
      if scrollX != target {
        scrollX := target;
      }
      envLabel := EnvLabel(page);
    }

    /**
     * `update`: while a hit is pending nothing happens. Otherwise the keys
     * set velocity and facing, the camera jumps to the player's page, the
     * segment label follows it, and a fresh press of R runs `create` again.
     */
    method Update(keys: Keys, restartPressed: bool, draws: SpawnDraws)
      requires Valid() && running
      requires DrawsInRange(draws)
      modifies this, state`maskPieces, state`collectedMasks
      ensures Valid()
      ensures old(isHit) ==> unchanged(this) && unchanged(state)
      ensures !old(isHit) && restartPressed ==> Fresh(draws)
      ensures !old(isHit) && !restartPressed ==>
        && player == old(player).(vx := Steer(keys).vx, vy := Steer(keys).vy,
                                  flipX := Facing(keys, old(player.flipX)))
        && scrollX == PageOffset(Page(player.x))
        && envLabel == EnvLabel(Page(player.x))
        && masks == old(masks) && enemies == old(enemies)
        && isHit == old(isHit) && isCollecting == old(isCollecting)
        && pending == old(pending) && running
        && unchanged(state)
    {
      if isHit {
        return;
      }
      Steering(keys);
      if restartPressed {
        Create(draws);
      }
    }

    /**
     * `collectMask` for piece `i`: ignored once collecting has begun or when
     * the piece is already destroyed; otherwise the piece is destroyed, the
     * counter goes up by one, its flag is set, and reaching the total sets
     * `isCollecting` and schedules the start of EndStory. A pending hit does
     * not block it.
     */
    method CollectMask(i: nat)
      requires Valid() && running
      requires i < |masks|
      modifies this`masks, this`isCollecting, this`pending, state`maskPieces, state`collectedMasks
      ensures Valid()
      ensures old(isCollecting) || !old(masks[i].active) ==>
        && masks == old(masks) && isCollecting == old(isCollecting) && pending == old(pending)
        && unchanged(state)
      ensures !old(isCollecting) && old(masks[i].active) ==>
        && masks == old(masks)[i := old(masks[i]).(active := false)]
        && state.maskPieces == old(state.maskPieces) + 1
        && state.collectedMasks == old(state.collectedMasks)[old(masks[i].name) := true]
        && isCollecting == (state.maskPieces >= state.totalPieces)
        && pending == old(pending) + (if isCollecting then [StartEndStory] else [])
    {
      if isCollecting || !masks[i].active {
        return;
      }
      var name := masks[i].name;
      CollectConsistent(masks, state.maskPieces, state.collectedMasks, i);
      masks := masks[i := masks[i].(active := false)];
      state.maskPieces := state.maskPieces + 1;
      state.collectedMasks := state.collectedMasks[name := true];
      if state.maskPieces >= state.totalPieces {
        isCollecting := true;
        pending := pending + [StartEndStory];
      }
    }

    /**
     * `hitEnemy`: only the first overlap after `create` sets `isHit` and
     * schedules the restart; later overlaps are ignored.
     */
    method HitEnemy()
      requires Valid() && running
      modifies this`isHit, this`pending
      ensures Valid()
      ensures isHit
      ensures pending == old(pending) + (if old(isHit) then [] else [RestartScene])
    {
      if isHit {
        return;
      }
      isHit := true;
      pending := pending + [RestartScene];
    }

    /**
     * The oldest deferred call fires. Starting EndStory stops the scene and
     * its clock, leaving the record's progress as it is; the restart runs
     * `create` again, which discards every other pending call.
     */
    method FireDeferred(draws: SpawnDraws)
      requires Valid() && running && pending != []
      requires DrawsInRange(draws)
      modifies this, state`maskPieces, state`collectedMasks
      ensures Valid()
      ensures old(pending[0]) == StartEndStory ==>
        && !running && pending == []
        && masks == old(masks) && isCollecting && isHit == old(isHit)
        && enemies == old(enemies) && player == old(player)
        && scrollX == old(scrollX) && envLabel == old(envLabel)
        && unchanged(state)
      ensures old(pending[0]) == RestartScene ==> Fresh(draws)
    {
      match pending[0]
      case StartEndStory =>
        pending := [];
        running := false;
      case RestartScene =>
        Create(draws);
    }
  }
}
