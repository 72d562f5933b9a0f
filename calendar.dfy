/**
 * Dates and times as the activity time window uses them.
 *
 * The Jalali (Persian) calendar converter is not part of this model: it is
 * passed around as a function value of type Converter, which returns None
 * where the converter raises.  Time zones are left out: the current time is
 * given as a local date-time in the same zone as the activity's fields.
 */
module Calendar {
  import opened Wrappers

  /** A Gregorian calendar date, as the converter returns it. */
  datatype Date = Date(year: int, month: int, day: int)

  /** A time of day, as a TimeField holds it. */
  datatype TimeOfDay = TimeOfDay(hour: int, minute: int, second: int, micro: int)

  /** datetime.combine(date, time). */
  datatype DateTime = DateTime(date: Date, time: TimeOfDay)

  /** A stored Persian date string to a Gregorian date; None when it cannot be converted. */
  type Converter = string -> Option<Date>

  /** The fields of a date-time, most significant first. */
  function Key(t: DateTime): (k: seq<int>)
    ensures |k| == 7
  {
    [t.date.year, t.date.month, t.date.day, t.time.hour, t.time.minute, t.time.second, t.time.micro]
  }

  /** Lexicographic order on keys of equal length. */
  predicate LexLe(a: seq<int>, b: seq<int>)
    requires |a| == |b|
    decreases |a|
  {
    |a| == 0 || a[0] < b[0] || (a[0] == b[0] && LexLe(a[1..], b[1..]))
  }

  /** The order Python uses to compare two date-times: t is not later than u. */
  predicate NotAfter(t: DateTime, u: DateTime)
  {
    LexLe(Key(t), Key(u))
  }

  lemma {:induction false} LexLeTransitive(a: seq<int>, b: seq<int>, c: seq<int>)
    requires |a| == |b| == |c|
    requires LexLe(a, b) && LexLe(b, c)
    ensures LexLe(a, c)
  {
    if |a| > 0 && a[0] == b[0] && b[0] == c[0] {
      LexLeTransitive(a[1..], b[1..], c[1..]);
    }
  }

  lemma {:induction false} LexLeTotal(a: seq<int>, b: seq<int>)
    requires |a| == |b|
    ensures LexLe(a, b) || LexLe(b, a)
  {
    if |a| > 0 && a[0] == b[0] {
      LexLeTotal(a[1..], b[1..]);
    }
  }

  lemma {:induction false} LexLeAntisymmetric(a: seq<int>, b: seq<int>)
    requires |a| == |b|
    requires LexLe(a, b) && LexLe(b, a)
    ensures a == b
  {
    if |a| > 0 {
      LexLeAntisymmetric(a[1..], b[1..]);
      assert a == [a[0]] + a[1..] && b == [b[0]] + b[1..];
    }
  }

  /** NotAfter is a total order on date-times. */
  lemma NotAfterIsTotalOrder(t: DateTime, u: DateTime, v: DateTime)
    ensures NotAfter(t, t)
    ensures NotAfter(t, u) || NotAfter(u, t)
    ensures NotAfter(t, u) && NotAfter(u, t) ==> t == u
    ensures NotAfter(t, u) && NotAfter(u, v) ==> NotAfter(t, v)
  {
    LexLeReflexive(Key(t));
    LexLeTotal(Key(t), Key(u));
    if NotAfter(t, u) && NotAfter(u, t) {
      LexLeAntisymmetric(Key(t), Key(u));
    }
    if NotAfter(t, u) && NotAfter(u, v) {
      LexLeTransitive(Key(t), Key(u), Key(v));
    }
  }

  lemma {:induction false} LexLeReflexive(a: seq<int>)
    ensures LexLe(a, a)
  {
    if |a| > 0 {
      LexLeReflexive(a[1..]);
    }
  }
}
