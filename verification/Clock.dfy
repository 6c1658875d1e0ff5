/** Durations between clock readings. */
module Clock {

  /** The time from an earlier reading to a later one, and nothing if the clock has
      gone back, as the source's saturating subtraction has it. */
  function Since(now: nat, then_: nat): nat { if now < then_ then 0 else now - then_ }
}
