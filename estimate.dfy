/** `predict_resolution_time`: a (category, priority) table of base minutes,
    180 for pairs it lacks, scaled by 1.5 in business hours and by 0.8 outside. */
module Estimate {
  import opened Tickets

  type BaseTimes = map<(Category, Priority), nat>

  /** The table the source hard-codes; OTHER has no row. */
  const SourceBaseTimes: BaseTimes := map[
    (HARDWARE, CRITICAL) := 120, (HARDWARE, HIGH) := 180, (HARDWARE, MEDIUM) := 240, (HARDWARE, LOW) := 480,
    (SOFTWARE, CRITICAL) := 60, (SOFTWARE, HIGH) := 120, (SOFTWARE, MEDIUM) := 180, (SOFTWARE, LOW) := 360,
    (NETWORK, CRITICAL) := 90, (NETWORK, HIGH) := 150, (NETWORK, MEDIUM) := 240, (NETWORK, LOW) := 480,
    (ACCESS, CRITICAL) := 30, (ACCESS, HIGH) := 45, (ACCESS, MEDIUM) := 60, (ACCESS, LOW) := 120,
    (EMAIL, CRITICAL) := 45, (EMAIL, HIGH) := 90, (EMAIL, MEDIUM) := 120, (EMAIL, LOW) := 240
  ]

  const DefaultBaseTime: nat := 180

  /** `base_times.get((category, priority), 180)` */
  function BaseTime(table: BaseTimes, c: Category, p: Priority): nat
  {
    if (c, p) in table then table[(c, p)] else DefaultBaseTime
  }

  /** The source's business-hours window, inclusive of 17:00-17:59. */
  predicate BusinessHours(hour: int)
  {
    9 <= hour <= 17
  }

  /** `int(base * 1.5)` in business hours and `int(base * 0.8)` outside them:
      the estimate is the largest whole number of minutes not above the scaled
      base time. */
  function PredictResolutionTime(table: BaseTimes, c: Category, p: Priority, hour: int): (minutes: nat)
    ensures BusinessHours(hour) ==> 2 * minutes <= 3 * BaseTime(table, c, p) < 2 * minutes + 2
    ensures !BusinessHours(hour) ==> 5 * minutes <= 4 * BaseTime(table, c, p) < 5 * minutes + 5
  {
    var base := BaseTime(table, c, p);
    if BusinessHours(hour) then base * 3 / 2 else base * 4 / 5
  }

  /** Every base time of at least two minutes gives a positive estimate. */
  lemma EstimatePositive(table: BaseTimes, c: Category, p: Priority, hour: int)
    requires forall k | k in table :: table[k] >= 2
    ensures PredictResolutionTime(table, c, p, hour) > 0
  {
  }

  /** The source's table satisfies that, and all its entries are multiples of 5,
      so the after-hours estimate is exactly four fifths of the base time. */
  lemma SourceTableWellFormed()
    ensures forall k | k in SourceBaseTimes :: SourceBaseTimes[k] >= 2 && SourceBaseTimes[k] % 5 == 0
  {
  }

  /** A ticket takes longer in business hours than after them. */
  lemma BusinessHoursSlower(table: BaseTimes, c: Category, p: Priority, busy: int, quiet: int)
    requires BusinessHours(busy) && !BusinessHours(quiet)
    requires BaseTime(table, c, p) > 0
    ensures PredictResolutionTime(table, c, p, busy) > PredictResolutionTime(table, c, p, quiet)
  {
  }

  /** The window includes the 17 o'clock hour: a NETWORK/HIGH ticket is
      estimated at 225 minutes at 17:xx and at 120 minutes at 18:xx; a pair
      the table lacks uses 180 minutes. */
  lemma SourceEstimates()
    ensures PredictResolutionTime(SourceBaseTimes, NETWORK, HIGH, 17) == 225
    ensures PredictResolutionTime(SourceBaseTimes, NETWORK, HIGH, 18) == 120
    ensures PredictResolutionTime(SourceBaseTimes, OTHER, LOW, 10) == 270
    ensures PredictResolutionTime(SourceBaseTimes, OTHER, LOW, 8) == 144
  {
  }
}
