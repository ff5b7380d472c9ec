/**
 * Instants are epoch milliseconds, as `Date.getTime()` returns them; the
 * server adds waits and ride times to them in whole minutes.
 */
module Clock {

  const MsPerMinute: int := 60000

  /** `new Date(t + minutes * 60 * 1000)`, as an instant. */
  function AfterMinutes(t: int, minutes: int): int {
    t + minutes * MsPerMinute
  }
}
