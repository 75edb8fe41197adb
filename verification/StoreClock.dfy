/** The persisted high-water clock of the CAPE store, in nanoseconds. */
module StoreClock {
  import opened Options

  /** Store time: never before the high-water mark, and refused when the reading is over five seconds behind it. */
  function Now(clock: Option<int>, reading: int): Option<int> {
    if clock.None? then Some(reading)
    else if reading < clock.value - 5_000_000_000 then None
    else if reading < clock.value then Some(clock.value)
    else Some(reading)
  }

  /** The later of the high-water mark and the reading. */
  function Later(clock: Option<int>, reading: int): int {
    if clock.Some? && clock.value > reading then clock.value else reading
  }

  /** The reading is at most five seconds behind. */
  predicate InStep(clock: Option<int>, reading: int) {
    clock.Some? ==> clock.value - 5_000_000_000 <= reading
  }

  lemma StoreTime(clock: Option<int>, reading: int)
    ensures Now(clock, reading) == if InStep(clock, reading) then Some(Later(clock, reading)) else None
  {
  }
}
