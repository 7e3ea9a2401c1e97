/**
 * Enumerations and constants shared by the gameplay modules
 * (core/game_types.h, core/game_constants.h, gameplay/items/items_types.h,
 * gameplay/items/items_constants.h).
 */
module GameTypes {

  datatype Map = NoneMap | ScorchingSands | AlpinRush | NeonCircuit

  datatype GameState = HomePage | MapSelection | MultiplayerLobby | Gameplay | PlayAgain | Settings | ReinitHome

  datatype GameMode = SinglePlayer | MultiPlayer

  // Item, numbered as the C enum numbers it
  const ITEM_NONE: int := 0
  const ITEM_BOX: int := 1
  const ITEM_OIL: int := 2
  const ITEM_BOMB: int := 3
  const ITEM_BANANA: int := 4
  const ITEM_GREEN_SHELL: int := 5
  const ITEM_RED_SHELL: int := 6
  const ITEM_MISSILE: int := 7
  const ITEM_MUSHROOM: int := 8
  const ITEM_SPEEDBOOST: int := 9

  const RACE_TICK_FREQ: int := 60
  const MAX_CARS: int := 8

  // Car physics
  const CAR_RADIUS: int := 16
  const MIN_SPEED_THRESHOLD: int := 5
  const MIN_MOVING_SPEED: int := 25
  const TURN_STEP_50CC: int := 3
  const SPEED_50CC: int := 768
  const CAR_NAME_MAX_LENGTH: int := 31

  // Track layout
  const START_LINE_X: int := 904
  const START_LINE_Y: int := 580
  const FINISH_LINE_Y: int := 540
  const CHECKPOINT_DIVIDE_X: int := 512
  const CHECKPOINT_DIVIDE_Y: int := 512
  const MAP_SIZE: int := 1024
  const SCREEN_WIDTH: int := 256
  const SCREEN_HEIGHT: int := 192
  const MAX_SCROLL_X: int := 768
  const MAX_SCROLL_Y: int := 832

  // Items
  const MAX_TRACK_ITEMS: int := 32
  const MAX_ITEM_BOX_SPAWNS: int := 8
  const PROJECTILE_SPAWN_OFFSET: int := 30
  const HAZARD_DROP_OFFSET: int := 40
  const CAR_COLLISION_SIZE: int := 32
  const PROJECTILE_LIFETIME_SECONDS: int := 20
  const BOMB_LIFETIME_SECONDS: int := 5
  const HOMING_TURN_RATE: int := 5
  const SHOOTER_IMMUNITY_FRAMES: int := 120
  const WAYPOINT_LAP_THRESHOLD: int := 10
  const MAX_WAYPOINT_VISITS: int := 150
  const SPEED_BOOST_DURATION: int := 150
  const MUSHROOM_CONFUSION_DURATION: int := 210
  const OIL_LIFETIME_TICKS: int := 600
  const ITEM_BOX_RESPAWN_TICKS: int := 180
  const SPEED_BOOST_MULT: int := 512
  /** FixedDiv(IntToFixed(3), IntToFixed(2)), FixedDiv(IntToFixed(6), IntToFixed(5)), FixedDiv(IntToFixed(17), IntToFixed(10)). */
  const GREEN_SHELL_SPEED_MULT: int := 384
  const RED_SHELL_SPEED_MULT: int := 307
  const MISSILE_SPEED_MULT: int := 435
  const ITEM_BOX_HITBOX: int := 8
  /** The sentinel for "no car". */
  const INVALID_CAR_INDEX: int := -1
  const OIL_SLICK_HITBOX: int := 32
  const BOMB_HITBOX: int := 16
  const SHELL_HITBOX: int := 16
  const BANANA_HITBOX: int := 16
  const MISSILE_HITBOX_W: int := 16
  const MISSILE_HITBOX_H: int := 32
}
