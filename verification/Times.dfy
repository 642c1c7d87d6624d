// Points in time as microseconds, and the freshness rule several programs share.
module Times {
  const SECOND := 1_000_000

  /** An age within a limit given in whole seconds, and not negative. */
  predicate Fresh(now: int, observed: int, maximumAge: int) {
    0 <= now - observed <= maximumAge * SECOND
  }
}
