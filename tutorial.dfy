/**
 * The tutorial of src/scenes/Tutorial.js: five steps shown one at a time,
 * each completed by its own rule (all four directions, a diagonal, three
 * seconds watching the enemy, touching the demo mask, three seconds
 * reading), after which a two-second call moves on by itself. The player
 * moves inside a practice zone.
 */
module TutorialScene {
  import opened Host

  const TotalSteps: int := 5
  /** Player speed per axis in the practice zone. */
  const Speed: int := 200
  /** The practice zone the player is clamped to. */
  const MinX: int := 120
  const MaxX: int := 680
  const MinY: int := 230
  const MaxY: int := 380
  /** Where `create` places the player. */
  const StartX: int := 400
  const StartY: int := 320

  /** The step index (zero-based) on which the demo mask is shown and collected. */
  const MaskStep: int := 3
  /** The step indices completed by a three-second timer. */
  const ObserveStep: int := 2
  const FinalStep: int := 4

  /** The four arrow keys. */
  datatype Direction = Left | Right | Up | Down

  /** Whether the tick holds the key of `d`. */
  function Held(keys: Keys, d: Direction): bool {
    match d
    case Left => keys.left
    case Right => keys.right
    case Up => keys.up
    case Down => keys.down
  }

  /** `movementTracker`: which directions were held since the step was shown. */
  datatype Tracker = Tracker(left: bool, right: bool, up: bool, down: bool)
  {
    function Marked(d: Direction): bool {
      match d
      case Left => left
      case Right => right
      case Up => up
      case Down => down
    }

    predicate All() { left && right && up && down }
  }

  const NoMoves: Tracker := Tracker(false, false, false, false)

  /** The tracker after one tick: a held key marks its direction, nothing is unmarked. */
  function Track(t: Tracker, keys: Keys): (r: Tracker)
    ensures forall d :: r.Marked(d) == (t.Marked(d) || Held(keys, d))
  {
    Tracker(t.left || keys.left, t.right || keys.right, t.up || keys.up, t.down || keys.down)
  }

  /** The tracker after a run of ticks, starting from `t`. */
  function TrackAll(t: Tracker, ticks: seq<Keys>): Tracker
    decreases |ticks|
  {
    if ticks == [] then t else TrackAll(Track(t, ticks[0]), ticks[1..])
  }

  /** Some tick of the run holds the key of `d`. */
  predicate Pressed(ticks: seq<Keys>, d: Direction) {
    exists i :: 0 <= i < |ticks| && Held(ticks[i], d)
  }

  /** After a run of ticks a direction is marked exactly when it was marked before or held in some tick. */
  lemma {:induction false} TrackAllMarks(t: Tracker, ticks: seq<Keys>, d: Direction)
    ensures TrackAll(t, ticks).Marked(d) == (t.Marked(d) || Pressed(ticks, d))
    decreases |ticks|
  {
    if ticks != [] {
      TrackAllMarks(Track(t, ticks[0]), ticks[1..], d);
      if Pressed(ticks[1..], d) {
        var i :| 0 <= i < |ticks[1..]| && Held(ticks[1..][i], d);
        assert Held(ticks[i + 1], d);
      }
      if Pressed(ticks, d) && !Held(ticks[0], d) {
        var i :| 0 <= i < |ticks| && Held(ticks[i], d);
        assert ticks[1..][i - 1] == ticks[i];
      }
    }
  }

  /**
   * The rule of step index 0: over the ticks since `showStep` cleared the tracker
   * it is full exactly when each of the four keys was held in some tick.
   */
  lemma TrackerRule(ticks: seq<Keys>)
    ensures TrackAll(NoMoves, ticks).All() <==>
      Pressed(ticks, Left) && Pressed(ticks, Right) && Pressed(ticks, Up) && Pressed(ticks, Down)
  {
    TrackAllMarks(NoMoves, ticks, Left);
    TrackAllMarks(NoMoves, ticks, Right);
    TrackAllMarks(NoMoves, ticks, Up);
    TrackAllMarks(NoMoves, ticks, Down);
  }

  /**
   * The tutorial's velocity: sequential ifs, so right overrides left and
   * down overrides up, at 200 on each axis.
   */
  function Velocity(keys: Keys): (v: (int, int))
    ensures v.0 == Speed <==> keys.right
    ensures v.0 == -Speed <==> keys.left && !keys.right
    ensures v.0 == 0 <==> !keys.left && !keys.right
    ensures v.1 == Speed <==> keys.down
    ensures v.1 == -Speed <==> keys.up && !keys.down
    ensures v.1 == 0 <==> !keys.up && !keys.down
  {
    var vx := if keys.right then Speed else if keys.left then -Speed else 0;
    var vy := if keys.down then Speed else if keys.up then -Speed else 0;
    (vx, vy)
  }

  /** `flipX` after a tick: right clears it even when left is held too. */
  function Facing(keys: Keys, flipped: bool): (f: bool)
    ensures keys.right ==> !f
    ensures keys.left && !keys.right ==> f
    ensures !keys.left && !keys.right ==> f == flipped
  {
    if keys.right then false else if keys.left then true else flipped
  }

  /**
   * The tick's movement rule for step indices 0 and 1: index 0 is done once
   * the tracker is full, index 1 once a diagonal has been held.
   */
  predicate MovementCompletes(step: int, completed: bool, t: Tracker, diagonal: bool) {
    !completed && ((step == 0 && t.All()) || (step == 1 && diagonal))
  }

  /** The sprite `create` makes. */
  const NewPlayer: Sprite := Sprite(StartX, StartY, 0, 0, false)

  /**
   * A delayed-call slot (`enemyObserveTimer`, `finalStepTimer`): empty,
   * holding a call still to fire, or holding one that has fired or whose
   * clock was shut down (the field is not cleared in those cases).
   */
  datatype Timer = NoTimer | Scheduled | Spent

  /**
   * The slot after the tick's check: while its step is shown and not
   * completed a call is created if the slot is empty and never replaced;
   * otherwise the slot is destroyed and cleared.
   */
  function TimerAfterTick(t: Timer, watching: bool): (r: Timer)
    ensures watching && t == NoTimer ==> r == Scheduled
    ensures watching && t != NoTimer ==> r == t
    ensures !watching ==> r == NoTimer
  {
    if watching then (if t == NoTimer then Scheduled else t) else NoTimer
  }

  /** Ticking again under the same condition changes nothing: one slot, one call. */
  lemma TimerSettles(t: Timer, watching: bool)
    ensures TimerAfterTick(TimerAfterTick(t, watching), watching) == TimerAfterTick(t, watching)
    ensures watching ==> TimerAfterTick(t, watching) != NoTimer
  {
  }

  /** Clock shutdown: a call still to fire is dropped, the field keeps it. */
  function Shutdown(t: Timer): (r: Timer)
    ensures r != Scheduled
    ensures t != Scheduled ==> r == t
  {
    if t == Scheduled then Spent else t
  }

  class Tutorial {
    var currentStep: int
    var stepCompleted: bool
    var tracker: Tracker
    var diagonalMoved: bool
    var observeTimer: Timer
    var finalTimer: Timer
    /** Auto-advance calls (2000 ms) not yet fired. */
    var autoAdvances: nat
    /** Collection tweens whose completion will hide the demo mask. */
    var maskFades: nat
    var demoMaskVisible: bool
    var player: Sprite
    /** Scene starts scheduled by the buttons (500 ms), in firing order. */
    var exits: seq<SceneKey>
    /** False once a scheduled scene start has stopped the tutorial. */
    var running: bool

    ghost predicate Valid()
      reads this
    {
      Steps() && Clock()
    }

    /**
     * The step is in range, the demo mask is only shown on its step, and
     * the movement steps are completed only by their rules.
     */
    ghost predicate Steps()
      reads this`currentStep, this`stepCompleted, this`tracker, this`diagonalMoved, this`demoMaskVisible
    {
      && 0 <= currentStep < TotalSteps
      && (demoMaskVisible ==> currentStep == MaskStep)
      && (diagonalMoved ==> currentStep == 1)
      && (currentStep == 0 && stepCompleted ==> tracker.All())
      && (currentStep == 1 && stepCompleted ==> diagonalMoved)
    }

    /** A stopped scene has no calls left to fire. */
    ghost predicate Clock()
      reads this`running, this`exits, this`autoAdvances, this`maskFades, this`observeTimer, this`finalTimer
    {
      !running ==> exits == [] && autoAdvances == 0 && maskFades == 0 &&
                   observeTimer != Scheduled && finalTimer != Scheduled
    }

    /** Step `i` as `showStep` leaves it. */
    ghost predicate Showing(i: int)
      reads this`currentStep, this`stepCompleted, this`tracker, this`diagonalMoved, this`demoMaskVisible
    {
      currentStep == i && !stepCompleted && tracker == NoMoves && !diagonalMoved &&
      demoMaskVisible == (i == MaskStep)
    }

    /** The scene's constructor and its first `create`. */
    constructor ()
      ensures Valid() && Showing(0) && running
      ensures observeTimer == NoTimer && finalTimer == NoTimer
      ensures autoAdvances == 0 && maskFades == 0 && exits == []
      ensures player == NewPlayer
    {
      currentStep, stepCompleted := 0, false;
      tracker, diagonalMoved := NoMoves, false;
      observeTimer, finalTimer := NoTimer, NoTimer;
      autoAdvances, maskFades := 0, 0;
      demoMaskVisible := false;
      player := NewPlayer;
      exits, running := [], true;
      new;
      ShowStep(0);
    }

    /**
     * `create` when the tutorial is entered again: a new player, a fresh
     * tracker and step 0. The timer fields keep whatever the last visit left
     * in them.
     */
    method Create()
      requires Valid() && !running
      modifies this`player, this`running,
        this`currentStep, this`stepCompleted, this`tracker, this`diagonalMoved, this`demoMaskVisible
      ensures Valid() && Showing(0) && running
      ensures observeTimer == old(observeTimer) && finalTimer == old(finalTimer)
      ensures autoAdvances == 0 && maskFades == 0 && exits == []
      ensures player == NewPlayer
    {
      player := NewPlayer;
      tracker := NoMoves;
      running := true;
      ShowStep(0);
    }

    /** `showStep(i)`: step `i` uncompleted, tracker and diagonal cleared, the mask shown on its step only. */
    method ShowStep(i: int)
      requires 0 <= i < TotalSteps
      modifies this`currentStep, this`stepCompleted, this`tracker, this`diagonalMoved, this`demoMaskVisible
      ensures Steps() && Showing(i)
    {
      currentStep := i;
      stepCompleted := false;
      tracker := NoMoves;
      diagonalMoved := false;
      demoMaskVisible := i == MaskStep;
    }

    /** `nextStep`: the following step, or from the last one the start of the story. */
    method NextStep()
      requires Valid() && running
      modifies this`currentStep, this`stepCompleted, this`tracker, this`diagonalMoved, this`demoMaskVisible,
        this`exits
      ensures Valid() && running
      ensures old(currentStep) < TotalSteps - 1 ==> Showing(old(currentStep) + 1) && exits == old(exits)
      ensures old(currentStep) == TotalSteps - 1 ==>
        && exits == old(exits) + [StoryScene]
        && currentStep == old(currentStep) && stepCompleted == old(stepCompleted)
        && tracker == old(tracker) && diagonalMoved == old(diagonalMoved)
        && demoMaskVisible == old(demoMaskVisible)
    {
      if currentStep < TotalSteps - 1 {
        ShowStep(currentStep + 1);
      } else {
        exits := exits + [StoryScene];
      }
    }

    /** `prevStep`: the preceding step, or nothing on the first. */
    method PrevStep()
      requires Valid() && running
      modifies this`currentStep, this`stepCompleted, this`tracker, this`diagonalMoved, this`demoMaskVisible
      ensures Valid()
      ensures old(currentStep) > 0 ==> Showing(old(currentStep) - 1)
      ensures old(currentStep) == 0 ==>
        && currentStep == 0 && stepCompleted == old(stepCompleted)
        && tracker == old(tracker) && diagonalMoved == old(diagonalMoved)
        && demoMaskVisible == old(demoMaskVisible)
    {
      if currentStep > 0 {
        ShowStep(currentStep - 1);
      }
    }

    /** The MENU button: the main menu starts after 500 ms. */
    method BackToMenu()
      requires Valid() && running
      modifies this`exits
      ensures Valid()
      ensures exits == old(exits) + [MainMenu]
    {
      exits := exits + [MainMenu];
    }

    /**
     * `completeStep`: only the first call marks the step and schedules an
     * auto-advance. Its callers only reach it under their step's rule.
     */
    method CompleteStep()
      requires Valid() && running
      requires currentStep == 0 ==> tracker.All()
      requires currentStep == 1 ==> diagonalMoved
      modifies this`stepCompleted, this`autoAdvances
      ensures Valid()
      ensures stepCompleted
      ensures autoAdvances == old(autoAdvances) + (if old(stepCompleted) then 0 else 1)
    {
      if stepCompleted {
        return;
      }
      stepCompleted := true;
      autoAdvances := autoAdvances + 1;
    }

    /** An auto-advance fires: it moves on only if the step is still completed and not the last. */
    method FireAutoAdvance()
      requires Valid() && running && autoAdvances > 0
      modifies this`autoAdvances, this`currentStep, this`stepCompleted, this`tracker, this`diagonalMoved,
        this`demoMaskVisible, this`exits
      ensures Valid() && running
      ensures autoAdvances == old(autoAdvances) - 1 && exits == old(exits)
      ensures old(stepCompleted) && old(currentStep) < TotalSteps - 1 ==> Showing(old(currentStep) + 1)
      ensures !(old(stepCompleted) && old(currentStep) < TotalSteps - 1) ==>
        && currentStep == old(currentStep) && stepCompleted == old(stepCompleted)
        && tracker == old(tracker) && diagonalMoved == old(diagonalMoved)
        && demoMaskVisible == old(demoMaskVisible)
    {
      autoAdvances := autoAdvances - 1;
      if stepCompleted && currentStep < TotalSteps - 1 {
        NextStep();
      }
    }

    /**
     * `collectDemoMask`: counts only on the mask step, while the mask is shown
     * and the step is open; the mask hides when its tween ends.
     */
    method CollectDemoMask()
      requires Valid() && running
      modifies this`stepCompleted, this`autoAdvances, this`maskFades
      ensures Valid()
      ensures var counts := old(currentStep) == MaskStep && old(demoMaskVisible) && !old(stepCompleted);
        && stepCompleted == (old(stepCompleted) || counts)
        && autoAdvances == old(autoAdvances) + (if counts then 1 else 0)
        && maskFades == old(maskFades) + (if counts then 1 else 0)
    {
      if currentStep == MaskStep && demoMaskVisible && !stepCompleted {
        maskFades := maskFades + 1;
        CompleteStep();
      }
    }

    /** The collection tween ends and hides the mask. */
    method FireMaskFade()
      requires Valid() && running && maskFades > 0
      modifies this`maskFades, this`demoMaskVisible
      ensures Valid()
      ensures maskFades == old(maskFades) - 1 && !demoMaskVisible
    {
      maskFades := maskFades - 1;
      demoMaskVisible := false;
    }

    /** The physics engine moving the player between ticks. */
    method MovePlayer(nx: int, ny: int)
      modifies this`player
      ensures player == old(player).(x := nx, y := ny)
    {
      player := player.(x := nx, y := ny);
    }

    /**
     * `update`: velocity, facing and tracker from the keys, the position
     * clamped to the practice zone, the movement rules of step indices 0 and 1, and
     * the two three-second timer slots.
     */
    method Update(keys: Keys)
      requires Valid() && running
      modifies this`player, this`tracker, this`diagonalMoved,
        this`stepCompleted, this`autoAdvances, this`observeTimer, this`finalTimer
      ensures Valid()
      ensures player == Sprite(Clamp(old(player.x), MinX, MaxX), Clamp(old(player.y), MinY, MaxY),
                               Velocity(keys).0, Velocity(keys).1, Facing(keys, old(player.flipX)))
      ensures tracker == Track(old(tracker), keys)
      ensures diagonalMoved == (old(diagonalMoved) || (currentStep == 1 && !old(stepCompleted) && keys.Diagonal()))
      ensures var completes := MovementCompletes(currentStep, old(stepCompleted), tracker, diagonalMoved);
        && stepCompleted == (old(stepCompleted) || completes)
        && autoAdvances == old(autoAdvances) + (if completes then 1 else 0)
      ensures observeTimer == TimerAfterTick(old(observeTimer), currentStep == ObserveStep && !stepCompleted)
      ensures finalTimer == TimerAfterTick(old(finalTimer), currentStep == FinalStep && !stepCompleted)
    {
      Steer(keys);
      player := player.(x := Clamp(player.x, MinX, MaxX), y := Clamp(player.y, MinY, MaxY));
      CheckMovement(keys);
      TickTimers();
    }

    /** The key blocks of `update`: velocity, facing and the tracker. */
    method Steer(keys: Keys)
      requires Steps()
      modifies this`player, this`tracker
      ensures Steps()
      ensures player == old(player).(vx := Velocity(keys).0, vy := Velocity(keys).1, flipX := Facing(keys, old(player.flipX)))
      ensures tracker == Track(old(tracker), keys)
    {
      player := player.(vx := Velocity(keys).0, vy := Velocity(keys).1, flipX := Facing(keys, player.flipX));
      tracker := Track(tracker, keys);
    }

    /** The completion checks of step indices 0 and 1. */
    method CheckMovement(keys: Keys)
      requires Valid() && running
      modifies this`diagonalMoved, this`stepCompleted, this`autoAdvances
      ensures Valid()
      ensures diagonalMoved == (old(diagonalMoved) || (currentStep == 1 && !old(stepCompleted) && keys.Diagonal()))
      ensures var completes := MovementCompletes(currentStep, old(stepCompleted), tracker, diagonalMoved);
        && stepCompleted == (old(stepCompleted) || completes)
        && autoAdvances == old(autoAdvances) + (if completes then 1 else 0)
    {
      if currentStep == 0 && !stepCompleted && tracker.All() {
        CompleteStep();
      }
      if currentStep == 1 && !stepCompleted {
        if keys.Diagonal() {
          diagonalMoved := true;
        }
        if diagonalMoved {
          CompleteStep();
        }
      }
    }

    /** The timer blocks of step indices 2 and 4. */
    method TickTimers()
      requires Clock() && running
      modifies this`observeTimer, this`finalTimer
      ensures Clock()
      ensures observeTimer == TimerAfterTick(old(observeTimer), currentStep == ObserveStep && !stepCompleted)
      ensures finalTimer == TimerAfterTick(old(finalTimer), currentStep == FinalStep && !stepCompleted)
    {
      observeTimer := TimerAfterTick(observeTimer, currentStep == ObserveStep && !stepCompleted);
      finalTimer := TimerAfterTick(finalTimer, currentStep == FinalStep && !stepCompleted);
    }

    /** The timer of step index 2 fires: it completes the step only if still on it and open. */
    method FireObserveTimer()
      requires Valid() && running && observeTimer == Scheduled
      modifies this`observeTimer, this`stepCompleted, this`autoAdvances
      ensures Valid()
      ensures observeTimer == Spent
      ensures var counts := currentStep == ObserveStep && !old(stepCompleted);
        && stepCompleted == (old(stepCompleted) || counts)
        && autoAdvances == old(autoAdvances) + (if counts then 1 else 0)
    {
      observeTimer := Spent;
      if currentStep == ObserveStep && !stepCompleted {
        CompleteStep();
      }
    }

    /** The timer of step index 4 fires: it completes the step only if still on it and open. */
    method FireFinalTimer()
      requires Valid() && running && finalTimer == Scheduled
      modifies this`finalTimer, this`stepCompleted, this`autoAdvances
      ensures Valid()
      ensures finalTimer == Spent
      ensures var counts := currentStep == FinalStep && !old(stepCompleted);
        && stepCompleted == (old(stepCompleted) || counts)
        && autoAdvances == old(autoAdvances) + (if counts then 1 else 0)
    {
      finalTimer := Spent;
      if currentStep == FinalStep && !stepCompleted {
        CompleteStep();
      }
    }

    /**
     * The oldest scheduled scene start fires: the tutorial stops and its
     * clock drops every call still to fire.
     */
    method FireExit() returns (scene: SceneKey)
      requires Valid() && running && exits != []
      modifies this`running, this`exits, this`autoAdvances, this`maskFades, this`observeTimer, this`finalTimer
      ensures Valid() && !running
      ensures scene == old(exits[0])
      ensures observeTimer == Shutdown(old(observeTimer)) && finalTimer == Shutdown(old(finalTimer))
    {
      scene := exits[0];
      running := false;
      exits := [];
      autoAdvances, maskFades := 0, 0;
      observeTimer := Shutdown(observeTimer);
      finalTimer := Shutdown(finalTimer);
    }
  }
}
