/**
 * The millisecond unit conversions of src/server/helpers/misc.ts. Durations are
 * whole numbers here; the source's numbers are floating point.
 */
module Misc {
  /** `inMinutes(m)`: minutes as milliseconds. */
  function InMinutes(minutes: int): int {
    minutes * 60 * 1000
  }

  /** `inHours(h)`: hours as milliseconds. */
  function InHours(hours: int): int {
    hours * 60 * 60 * 1000
  }

  /** An hour is sixty minutes, a minute 60000 ms and an hour 3600000 ms. */
  lemma HoursAreSixtyMinutes(h: int)
    ensures InHours(h) == InMinutes(60 * h)
    ensures InMinutes(h) == h * 60000 && InHours(h) == h * 3600000
  {
  }

  /** Both conversions are additive and map zero to zero. */
  lemma ConversionsAreLinear(a: int, b: int)
    ensures InMinutes(a + b) == InMinutes(a) + InMinutes(b)
    ensures InHours(a + b) == InHours(a) + InHours(b)
    ensures InMinutes(0) == 0 && InHours(0) == 0
  {
  }
}
