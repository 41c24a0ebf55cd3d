/**
 * Python `datetime` values as the service uses them: a calendar date and a time of
 * day, compared field by field (year first, microsecond last).
 */
module Dates {

  /** `datetime.MINYEAR` .. `datetime.MAXYEAR`. */
  type Year = y: int | 1 <= y <= 9999 witness 1
  type Month = m: int | 1 <= m <= 12 witness 1
  type Day = d: int | 1 <= d <= 31 witness 1
  type Hour = h: int | 0 <= h < 24
  type Minute = m: int | 0 <= m < 60
  type Second = s: int | 0 <= s < 60
  type Microsecond = u: int | 0 <= u < 1000000

  datatype DateTime = DateTime(
    year: Year, month: Month, day: Day,
    hour: Hour, minute: Minute, second: Second, microsecond: Microsecond)

  /** The fields in the order in which `datetime` compares them. */
  function Fields(d: DateTime): seq<int> {
    [d.year, d.month, d.day, d.hour, d.minute, d.second, d.microsecond]
  }

  /** Lexicographic order on equally long integer sequences. */
  predicate LexLessEq(a: seq<int>, b: seq<int>)
    requires |a| == |b|
  {
    a == [] || a[0] < b[0] || (a[0] == b[0] && LexLessEq(a[1..], b[1..]))
  }

  /** `a <= b` on `datetime` values. */
  predicate LessEq(a: DateTime, b: DateTime) {
    LexLessEq(Fields(a), Fields(b))
  }

  /** Every date is within a range that starts and ends at it. */
  lemma {:induction false} LexLessEqReflexive(a: seq<int>)
    ensures LexLessEq(a, a)
  {
    if a != [] {
      LexLessEqReflexive(a[1..]);
    }
  }

  /** Any two sequences of equal length are ordered one way or the other. */
  lemma {:induction false} LexLessEqTotal(a: seq<int>, b: seq<int>)
    requires |a| == |b|
    ensures LexLessEq(a, b) || LexLessEq(b, a)
  {
    if a != [] && a[0] == b[0] {
      LexLessEqTotal(a[1..], b[1..]);
    }
  }

  /** Sequences ordered both ways are equal. */
  lemma {:induction false} LexLessEqAntisymmetric(a: seq<int>, b: seq<int>)
    requires |a| == |b| && LexLessEq(a, b) && LexLessEq(b, a)
    ensures a == b
  {
    if a != [] {
      LexLessEqAntisymmetric(a[1..], b[1..]);
      assert a == [a[0]] + a[1..] && b == [b[0]] + b[1..];
    }
  }

  /** `<=` on `datetime` is a total order: any two values compare, and only equal ones both ways. */
  lemma LessEqTotalOrder(a: DateTime, b: DateTime)
    ensures LessEq(a, b) || LessEq(b, a)
    ensures LessEq(a, b) && LessEq(b, a) ==> a == b
  {
    LexLessEqTotal(Fields(a), Fields(b));
    if LessEq(a, b) && LessEq(b, a) {
      LexLessEqAntisymmetric(Fields(a), Fields(b));
      assert Fields(a)[0] == Fields(b)[0] && Fields(a)[1] == Fields(b)[1];
    }
  }
}
