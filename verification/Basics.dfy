/** Optional values and time. */
module Basics {

  datatype Option<+T> = None | Some(value: T)

  /** Nanoseconds: wall time counts from the Unix epoch, monotonic time from any fixed instant. */
  type Time = int

  const SECOND: int := 1_000_000_000
  const MINUTE: int := 60 * SECOND
  const HOUR: int := 60 * MINUTE

  /** Both clocks, read where an event occurs. */
  datatype Clock = Clock(monotonic: Time, wall: Time)

  /** Elapsed monotonic time; zero when `earlier` is later. */
  function Since(now: Time, earlier: Time): Time {
    if now >= earlier then now - earlier else 0
  }

  /** What storage keeps of a time: whole seconds since the epoch; a time before it is kept as the epoch. */
  function WholeSeconds(at: Time): Time {
    if at < 0 then 0 else at / SECOND * SECOND
  }
}
