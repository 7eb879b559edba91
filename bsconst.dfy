/**
 * Codes of the target game: light switch values, cube kinds, cut directions,
 * wall kinds, the timing constants of the transform and the stage names.
 */
module BsConstants {

  /* light switch values */
  const SWITCH_OFF: real := 0.0
  const S1_ON: real := 1.0
  const S1_FL_ON: real := 2.0
  const S1_FL_OFF: real := 3.0
  const S2_ON: real := 5.0
  const S2_FL_ON: real := 6.0
  const S2_FL_OFF: real := 7.0

  /** Value of a ring-move event, a toggle. */
  const RING_MOV_TOGG_VAL: real := 0.0

  /* cube kinds (the type byte of a target-game note) */
  const CUBE_LEFT: bv8 := 0
  const CUBE_RIGHT: bv8 := 1
  const CUBE_BOMB: bv8 := 3

  /* cut directions (the value of a target-game note) */
  const DIR_UP: real := 0.0
  const DIR_DOWN: real := 1.0
  const DIR_LEFT: real := 2.0
  const DIR_RIGHT: real := 3.0
  const DIR_L_UP: real := 4.0
  const DIR_R_UP: real := 5.0
  const DIR_L_DOWN: real := 6.0
  const DIR_R_DOWN: real := 7.0
  const DIR_FWD: real := 8.0

  /* wall kinds (the type byte of an obstacle) */
  const WALL_VERTICAL: bv8 := 0
  const WALL_HORIZONTAL: bv8 := 1

  /** Minimum spacing of two notes in one cell, and of two same-hand notes. */
  const BLOCK_PLACEMENT_DOWNTIME_MS: real := 200.0
  /** Minimum spacing of two notes on different timelines. */
  const BLOCK_PLACEMENT_DOWNTIME_NEIGHBOUR_MS: real := 125.0
  /** Source notes up to this time are lead-in and not transformed. */
  const LEAD_IN_TIME_MS: real := 3000.0
  const BS_MAX_BPM: real := 300.0

  const STAGE_NAMES: seq<string> := ["Easy", "Normal", "Hard", "Expert", "ExpertPlus"]
  const MODE_NAME_NA: string := "NoArrows"
  const MODE_NAME_NM: string := "Standard"
}
