/** The constants of config.py that the core uses (environment overrides are not modelled). */
module Config {

  /** Length of every generated room code. */
  const ROOM_CODE_LENGTH: nat := 6

  /** The decimal digits, which open the room-code alphabet. */
  const DIGITS: string := "0123456789"

  /** The base-62 alphabet room codes are drawn from. */
  const ROOM_CODE_CHARSET: string := DIGITS + "abcdefghijklmnopqrstuvwxyzABCDEFGHIJKLMNOPQRSTUVWXYZ"

  /** Default room lifetime, in hours. */
  const ROOM_TTL_HOURS: int := 24

  /** Default room capacity. */
  const MAX_PARTICIPANTS_PER_ROOM: int := 50

  /** Seconds per hour: time is modelled as whole seconds. */
  const SECONDS_PER_HOUR: int := 3600
}
