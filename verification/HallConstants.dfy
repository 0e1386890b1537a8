/** The thresholds and buffer sizes of the Hall index finder (src/node/types/stepper/hall_index.cpp). */
module HallConstants {
  const HOME_ENTER: int := 400
  const HOME_EXIT: int := 300
  const HOME_WIN: nat := 400
  const HOME_PRE: nat := 40
  const CLEAR_MIN: nat := HOME_PRE
  const CROSSINGS: nat := 3
  const ROOM: nat := HOME_WIN - 2 * HOME_PRE
  const WORD: int := 0x1_0000   // uint16_t
}
