/** The submission deadline: orders for a delivery date are accepted only
    before 11:00 local time on the day before delivery. */
module Deadline {
  import opened MarketTypes

  const MINUTES_PER_DAY: int := 1440

  /** 11:00, as minutes after midnight. */
  const CUTOFF_MINUTE_OF_DAY: int := 11 * 60

  /** The instant at `minuteOfDay` minutes after midnight of `day`. */
  function At(day: Day, minuteOfDay: int): Minute
  {
    day * MINUTES_PER_DAY + minuteOfDay
  }

  /** The cutoff for delivery date `delivery`: it falls on the previous day, at 11:00. */
  function SubmissionDeadline(delivery: Day): (cutoff: Minute)
    ensures cutoff / MINUTES_PER_DAY == delivery - 1
    ensures cutoff % MINUTES_PER_DAY == CUTOFF_MINUTE_OF_DAY
  {
    var c := At(delivery - 1, CUTOFF_MINUTE_OF_DAY);
    DivModUnique(c, delivery - 1, CUTOFF_MINUTE_OF_DAY);
    c
  }

  /** Euclidean division by one day is determined by any decomposition with a remainder in range. */
  lemma DivModUnique(x: int, q: int, r: int)
    requires x == q * MINUTES_PER_DAY + r && 0 <= r < MINUTES_PER_DAY
    ensures x / MINUTES_PER_DAY == q && x % MINUTES_PER_DAY == r
  {
  }

  /** Submissions for `delivery` are still open at `now`: read on the clock,
      `now` falls before the eve of delivery, or on the eve before 11:00. */
  predicate IsOpen(delivery: Day, now: Minute)
    ensures IsOpen(delivery, now) <==>
      now / MINUTES_PER_DAY < delivery - 1
      || (now / MINUTES_PER_DAY == delivery - 1 && now % MINUTES_PER_DAY < CUTOFF_MINUTE_OF_DAY)
  {
    var day, minute := now / MINUTES_PER_DAY, now % MINUTES_PER_DAY;
    assert now == At(day, minute);
    assert day < delivery - 1 ==> At(day, minute) < At(delivery - 1, 0) by {
      if day < delivery - 1 {
        assert At(delivery - 1, 0) - At(day, 0) == (delivery - 1 - day) * MINUTES_PER_DAY;
      }
    }
    assert day > delivery - 1 ==> At(day, minute) >= At(delivery, 0) by {
      if day > delivery - 1 {
        assert At(day, 0) - At(delivery, 0) == (day - delivery) * MINUTES_PER_DAY;
      }
    }
    now < SubmissionDeadline(delivery)
  }

  /** The guard run before every create and delete. */
  function RequireBeforeDeadline(delivery: Day, now: Minute): (r: Outcome)
    ensures r == Pass <==> now < SubmissionDeadline(delivery)
    ensures r.Fail? ==> r.error == DeadlinePassed
  {
    if !IsOpen(delivery, now) then Fail(DeadlinePassed) else Pass
  }

  /** Read on the clock: a request at `minuteOfDay` on `day` is open exactly
      when it is made before the eve of delivery, or on the eve before 11:00.
      In particular 10:59 on the eve is open and 11:00 on the eve is closed. */
  lemma OpenIffBeforeElevenOnEve(delivery: Day, day: Day, minuteOfDay: int)
    requires 0 <= minuteOfDay < MINUTES_PER_DAY
    ensures IsOpen(delivery, At(day, minuteOfDay))
        <==> day < delivery - 1 || (day == delivery - 1 && minuteOfDay < CUTOFF_MINUTE_OF_DAY)
  {
  }
}
