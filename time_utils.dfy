/** Interval arithmetic on millisecond timestamps (src/utils/timeUtils.js). */
module TimeUtils {

  function Max(a: int, b: int): int { if a >= b then a else b }
  function Min(a: int, b: int): int { if a <= b then a else b }

  /**
   * Length in milliseconds of the common part of [sessionStart, sessionEnd] and
   * [rangeStart, rangeEnd]; 0 when they do not meet.
   */
  function CalculateOverlap(sessionStart: int, sessionEnd: int, rangeStart: int, rangeEnd: int): (r: int)
    ensures r >= 0
    ensures r > 0 <==> sessionStart < rangeEnd && rangeStart < sessionEnd && sessionStart < sessionEnd && rangeStart < rangeEnd
    ensures sessionStart <= sessionEnd ==> r <= sessionEnd - sessionStart
    ensures rangeStart <= rangeEnd ==> r <= rangeEnd - rangeStart
  {
    var overlapStart := Max(sessionStart, rangeStart);
    var overlapEnd := Min(sessionEnd, rangeEnd);
    Max(0, overlapEnd - overlapStart)
  }

  /** Disjoint or merely touching intervals share nothing. */
  lemma OverlapDisjoint(sessionStart: int, sessionEnd: int, rangeStart: int, rangeEnd: int)
    requires sessionEnd <= rangeStart || rangeEnd <= sessionStart
    ensures CalculateOverlap(sessionStart, sessionEnd, rangeStart, rangeEnd) == 0
  {
  }

  /** The two intervals play symmetric roles. */
  lemma OverlapSymmetric(sessionStart: int, sessionEnd: int, rangeStart: int, rangeEnd: int)
    ensures CalculateOverlap(sessionStart, sessionEnd, rangeStart, rangeEnd)
         == CalculateOverlap(rangeStart, rangeEnd, sessionStart, sessionEnd)
  {
  }

  /** An interval inside the other one overlaps it by its own length. */
  lemma OverlapContained(innerStart: int, innerEnd: int, outerStart: int, outerEnd: int)
    requires outerStart <= innerStart <= innerEnd <= outerEnd
    ensures CalculateOverlap(innerStart, innerEnd, outerStart, outerEnd) == innerEnd - innerStart
    ensures CalculateOverlap(outerStart, outerEnd, innerStart, innerEnd) == innerEnd - innerStart
  {
  }

  /** Splitting the range at a point splits the overlap accordingly. */
  lemma OverlapAdditive(sessionStart: int, sessionEnd: int, a: int, b: int, c: int)
    requires sessionStart <= sessionEnd && a <= b <= c
    ensures CalculateOverlap(sessionStart, sessionEnd, a, c)
         == CalculateOverlap(sessionStart, sessionEnd, a, b) + CalculateOverlap(sessionStart, sessionEnd, b, c)
  {
  }

  /** [0, 30] against [15, 20] overlaps by 5; [10:00, 10:30] against [10:15, 10:20] by 5 minutes. */
  lemma OverlapExamples()
    ensures CalculateOverlap(0, 30, 15, 20) == 5
    ensures CalculateOverlap(36000000, 37800000, 36900000, 37200000) == 300000
    ensures CalculateOverlap(0, 10, 20, 30) == 0
  {
  }
}
