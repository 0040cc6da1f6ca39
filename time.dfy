/** Java's `LocalDateTime` and Python's naive `datetime`, reduced to what the
    application compares: a calendar day and a position inside it. */
module Time {

  const NanosPerSecond: int := 1_000_000_000
  const SecondsPerDay: int := 86_400
  const NanosPerDay: int := SecondsPerDay * NanosPerSecond

  /** A local date-time: `day` counts days from an arbitrary epoch, `nano` is
      the nanosecond of that day (00:00:00 is 0). */
  datatype DateTime = DateTime(day: int, nano: int) {
    ghost predicate Valid() {
      0 <= nano < NanosPerDay
    }
  }

  /** `!a.isAfter(b)`: `a` is at or before `b`. */
  predicate NotAfter(a: DateTime, b: DateTime)
  {
    a.day < b.day || (a.day == b.day && a.nano <= b.nano)
  }

  /** `date.atTime(h, m, s)`: whole seconds, no fraction. */
  function AtTime(day: int, h: nat, m: nat, s: nat): (t: DateTime)
    requires h < 24 && m < 60 && s < 60
    ensures t.Valid() && t.day == day
  {
    DateTime(day, ((h * 60 + m) * 60 + s) * NanosPerSecond)
  }

  lemma NotAfterTotal(a: DateTime, b: DateTime)
    ensures NotAfter(a, b) || NotAfter(b, a)
  {
  }

  lemma NotAfterTransitive(a: DateTime, b: DateTime, c: DateTime)
    requires NotAfter(a, b) && NotAfter(b, c)
    ensures NotAfter(a, c)
  {
  }
}
