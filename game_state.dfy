/**
 * The shared progress record of src/gameState.js: one mutable object that
 * outlives every scene. GameScene resets it and raises its counter and
 * flags; the main menu toggles its sound flag and also writes the counter
 * and the segment index directly, which is not modelled here.
 */
module SharedState {

  /** The keys `mask1` ... `mask4` of the four mask pieces. */
  datatype MaskName = Mask1 | Mask2 | Mask3 | Mask4

  /** The piece names in world order: Savannah, Swamp, Forest, Mountain. */
  const MaskNames: seq<MaskName> := [Mask1, Mask2, Mask3, Mask4]

  /** The segment names as the record lists them. */
  const Environments: seq<string> := ["savannah", "swamp", "forest", "mountain"]

  /** `totalPieces`: the number of pieces that ends the game. */
  const TotalPieces: int := 4

  /** A `collectedMasks` table with every piece marked as not collected. */
  function FreshFlags(): (flags: map<MaskName, bool>)
    ensures flags.Keys == {Mask1, Mask2, Mask3, Mask4}
    ensures forall name :: name in flags ==> !flags[name]
    ensures forall i :: 0 <= i < |MaskNames| ==> MaskNames[i] in flags
  {
    map[Mask1 := false, Mask2 := false, Mask3 := false, Mask4 := false]
  }

  class GameState {
    var maskPieces: int
    /** Never written after creation. */
    const totalPieces: int := TotalPieces
    /** Never written after creation. */
    const environments: seq<string> := Environments
    var currentEnvIndex: int
    var soundEnabled: bool
    var collectedMasks: map<MaskName, bool>

    /** The record as the module creates it. */
    constructor ()
      ensures maskPieces == 0
      ensures currentEnvIndex == 0
      ensures soundEnabled
      ensures collectedMasks == FreshFlags()
    {
      maskPieces := 0;
      currentEnvIndex := 0;
      soundEnabled := true;
      collectedMasks := FreshFlags();
    }

    /** Negates the sound flag and returns its new value. */
    method ToggleSound() returns (enabled: bool)
      modifies this`soundEnabled
      ensures soundEnabled == !old(soundEnabled)
      ensures enabled == soundEnabled
    {
      soundEnabled := !soundEnabled;
      enabled := soundEnabled;
    }

    /**
     * Clears the collection progress; the pieces total, the sound flag and
     * the segment fields keep their values (the frame says so).
     */
    method ResetMasks()
      modifies this`maskPieces, this`collectedMasks
      ensures maskPieces == 0
      ensures collectedMasks == FreshFlags()
    {
      maskPieces := 0;
      collectedMasks := FreshFlags();
    }
  }

  /** Two toggles give back the original sound setting. */
  method ToggleSoundTwice(state: GameState) returns (first: bool, second: bool)
    modifies state`soundEnabled
    ensures first == !old(state.soundEnabled)
    ensures second == old(state.soundEnabled) == state.soundEnabled
  {
    first := state.ToggleSound();
    second := state.ToggleSound();
  }

  /** A second reset leaves the record exactly as the first one left it. */
  method ResetMasksTwice(state: GameState)
    modifies state`maskPieces, state`collectedMasks
    ensures state.maskPieces == 0 && state.collectedMasks == FreshFlags()
    ensures state.collectedMasks.Keys == {Mask1, Mask2, Mask3, Mask4}
  {
    state.ResetMasks();
    ResetMasksIdempotent(state);
  }

  /** Resetting a record that is already reset changes none of its fields. */
  method ResetMasksIdempotent(state: GameState)
    requires state.maskPieces == 0 && state.collectedMasks == FreshFlags()
    modifies state`maskPieces, state`collectedMasks
    ensures unchanged(state)
  {
    state.ResetMasks();
  }
}
