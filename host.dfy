/**
 * What the game engine hands to the scenes: the arrow keys polled once per
 * tick, and the names of the scenes a scene can start.
 */
module Host {

  /** The four cursor keys as polled in one tick (`isDown`). */
  datatype Keys = Keys(left: bool, right: bool, up: bool, down: bool)
  {
    /** Some horizontal key and some vertical key are held together. */
    predicate Diagonal() {
      (left || right) && (up || down)
    }
  }

  /** A player sprite as the scenes see it: position, velocity and `flipX`. */
  datatype Sprite = Sprite(x: int, y: int, vx: int, vy: int, flipX: bool)

  /** Scenes that the modelled scenes hand control to. */
  datatype SceneKey = MainMenu | StoryScene | EndStory

  /** `Phaser.Math.Clamp`: `Math.max(lo, Math.min(hi, v))`. */
  function Clamp(v: int, lo: int, hi: int): (r: int)
    requires lo <= hi
    ensures lo <= r <= hi
    ensures lo <= v <= hi ==> r == v
    ensures v < lo ==> r == lo
    ensures hi < v ==> r == hi
  {
    if v < lo then lo else if hi < v then hi else v
  }
}
