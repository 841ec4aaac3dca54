/**
 * The simulation clock: a current day that advances by a fixed step, and the index of the era
 * that day falls in.
 */
module Timekeeping {
  import opened Eras
  import Calendar

  /** `eras.findIndex(e => d >= e.start && d <= e.end)`: the first era containing d, or -1. */
  function FindEra(eras: seq<Era>, d: int): (r: int)
    ensures -1 <= r < |eras|
    ensures r >= 0 ==> Contains(eras[r], d) && forall i :: 0 <= i < r ==> !Contains(eras[i], d)
    ensures r == -1 <==> forall i :: 0 <= i < |eras| ==> !Contains(eras[i], d)
  {
    if |eras| == 0 then -1
    else if Contains(eras[0], d) then 0
    else
      var r := FindEra(eras[1..], d);
      if r < 0 then -1 else r + 1
  }

  /** On the era table, every day of 1905–1940 finds its era and no later day finds any. */
  lemma FindEraOnTable(d: int)
    ensures FIRST_DAY <= d <= LAST_DAY ==> 0 <= FindEra(ERAS, d) && Contains(ERAS[FindEra(ERAS, d)], d)
    ensures d > LAST_DAY ==> FindEra(ERAS, d) == -1
  {
    ErasInOrder();
    if FIRST_DAY <= d <= LAST_DAY {
      ExactlyOneEra(d);
    }
  }

  /** The index `updateEra` settles on: the found era, or the current one when none matches. */
  function NextEraIndex(current: int, d: int): int {
    var idx := FindEra(ERAS, d);
    if idx >= 0 && idx != current then idx else current
  }

  /**
   * Index idx tracks day d: inside the table it names the era containing d, after the table
   * it stays on the last era.
   */
  predicate Tracks(idx: int, d: int) {
    && 0 <= idx < |ERAS|
    && (d <= LAST_DAY ==> Contains(ERAS[idx], d))
    && (d > LAST_DAY ==> idx == |ERAS| - 1)
  }

  /** One-day steps with `updateEra` keep the index tracking the date, from the first day on. */
  lemma NextDayTracks(idx: int, d: int)
    requires d >= FIRST_DAY && Tracks(idx, d)
    ensures Tracks(NextEraIndex(idx, d + 1), d + 1)
  {
    FindEraOnTable(d + 1);
    if d == LAST_DAY {
      ExactlyOneEra(LAST_DAY);
    }
  }

  /** `Math.min(1, Math.max(0, pos / span))` for an era of positive span. */
  function Progress(era: Era, date: int): (p: real)
    requires era.start < era.end
    ensures 0.0 <= p <= 1.0
    ensures date <= era.start ==> p == 0.0
    ensures date >= era.end ==> p == 1.0
    ensures era.start <= date <= era.end ==> p * (era.end - era.start) as real == (date - era.start) as real
  {
    var span := (era.end - era.start) as real;
    var pos := (date - era.start) as real;
    var q := pos / span;
    if q < 0.0 then 0.0 else if q > 1.0 then 1.0 else q
  }

  /** Later days are never less far through an era. */
  lemma ProgressMonotone(era: Era, d1: int, d2: int)
    requires era.start < era.end && d1 <= d2
    ensures Progress(era, d1) <= Progress(era, d2)
  {
    var span := (era.end - era.start) as real;
    assert (d1 - era.start) as real / span <= (d2 - era.start) as real / span;
  }

  class TimeController {
    const startDate: nat := 0
    var currentDate: nat
    const eras: seq<Era> := ERAS
    var currentEraIndex: int
    const tickDays: nat := 1

    /** The era index tracks the date. */
    predicate Valid()
      reads this
    {
      Tracks(currentEraIndex, currentDate)
    }

    /** Starts on 1905-01-01 in the first era, one day per step. */
    constructor ()
      ensures Valid()
      ensures currentDate == startDate && currentEraIndex == 0
    {
      currentDate := 0;
      currentEraIndex := 0;
    }

    function CurrentEra(): (e: Era)
      requires Valid()
      reads this
      ensures e in ERAS && (currentDate <= LAST_DAY ==> Contains(e, currentDate))
    {
      eras[currentEraIndex]
    }

    /** `currentDate.getFullYear()`. */
    function CurrentYear(): (y: int)
      reads this
      ensures y >= Calendar.EPOCH_YEAR
      ensures Calendar.NewYear(y) <= currentDate < Calendar.NewYear(y + 1)
    {
      Calendar.YearOfBounds(currentDate);
      Calendar.YearOf(currentDate)
    }

    method StepDay()
      requires Valid()
      modifies this
      ensures Valid()
      ensures currentDate == old(currentDate) + tickDays
      ensures currentEraIndex == NextEraIndex(old(currentEraIndex), currentDate)
    {
      NextDayTracks(currentEraIndex, currentDate);
      currentDate := currentDate + tickDays;
      UpdateEra();
    }

    method UpdateEra()
      modifies this
      ensures currentDate == old(currentDate)
      ensures currentEraIndex == NextEraIndex(old(currentEraIndex), currentDate)
    {
      var d := currentDate;
      var idx := FindEra(eras, d);
      if idx >= 0 && idx != currentEraIndex {
        currentEraIndex := idx;
      }
    }

    /** `getEraProgress()`: how far the date is through the current era, in [0,1]. */
    function EraProgress(): (p: real)
      requires Valid()
      reads this
      ensures 0.0 <= p <= 1.0
      ensures currentDate <= LAST_DAY ==>
        p * (CurrentEra().end - CurrentEra().start) as real == (currentDate - CurrentEra().start) as real
    {
      SpansPositive();
      Progress(CurrentEra(), currentDate)
    }
  }
}
