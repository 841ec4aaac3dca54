/**
 * The historical era table. Dates are whole day numbers counted from 1905-01-01 (day 0), so an
 * era's inclusive range [start, end] is a pair of integers.
 */
module Eras {

  datatype Era = Era(id: string, name: string, start: int, end: int, description: string,
                     policies: seq<string>)

  /** 1905-01-01, the first day of the table and the time controller's start date. */
  const FIRST_DAY: int := 0

  /** 1940-12-31, the last day any era covers. */
  const LAST_DAY: int := 13148

  const ERAS: seq<Era> := [
    Era("tsarist", "Late Tsarist", 0, 4382,          // 1905-01-01 .. 1916-12-31
        "Private landholding, unrest emerging.", ["baselineAgrarian"]),
    Era("revolution", "Revolution & Turmoil", 4383, 6208,   // 1917-01-01 .. 1921-12-31
        "Disruption & requisitions.", ["disruption", "earlyRequisition"]),
    Era("nep", "NEP", 6209, 8399,                    // 1922-01-01 .. 1927-12-31
        "Partial market incentives, recovery.", ["nepIncentives"]),
    Era("collectivization", "Collectivization", 8400, 10591,   // 1928-01-01 .. 1933-12-31
        "Forced consolidation, quota pressure.", ["collectivize", "quotaPressure"]),
    Era("postCollectivization", "Post-Collectivization", 10592, LAST_DAY,   // 1934-01-01 .. 1940-12-31
        "Stabilization & mechanization push.", ["mechanizationPush"])
  ]

  /** The source's test `d >= e.start && d <= e.end`. */
  predicate Contains(e: Era, d: int) { e.start <= d <= e.end }

  lemma ErasInOrder()
    ensures |ERAS| == 5
    ensures ERAS[0].id == "tsarist" && ERAS[1].id == "revolution" && ERAS[2].id == "nep"
    ensures ERAS[3].id == "collectivization" && ERAS[4].id == "postCollectivization"
    ensures ERAS[0].start == FIRST_DAY
    ensures forall i :: 0 <= i < |ERAS| ==> ERAS[i].start <= ERAS[i].end
    ensures forall i :: 0 < i < |ERAS| ==> ERAS[i].start == ERAS[i - 1].end + 1
  {
  }

  /** Contiguity: every day from 1905-01-01 to 1940-12-31 lies in exactly one era. */
  lemma ExactlyOneEra(d: int)
    requires FIRST_DAY <= d <= LAST_DAY
    ensures exists i :: 0 <= i < |ERAS| && Contains(ERAS[i], d)
    ensures forall i, j :: 0 <= i < |ERAS| && 0 <= j < |ERAS| && Contains(ERAS[i], d) && Contains(ERAS[j], d) ==> i == j
  {
    ErasInOrder();
    if d <= ERAS[0].end { assert Contains(ERAS[0], d); }
    else if d <= ERAS[1].end { assert Contains(ERAS[1], d); }
    else if d <= ERAS[2].end { assert Contains(ERAS[2], d); }
    else if d <= ERAS[3].end { assert Contains(ERAS[3], d); }
    else { assert Contains(ERAS[4], d); }
  }

  /** Every era's span is positive, so the progress division is defined. */
  lemma SpansPositive()
    ensures forall i :: 0 <= i < |ERAS| ==> ERAS[i].start < ERAS[i].end
  {
  }
}
