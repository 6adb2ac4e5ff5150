/** The subscription record and the calendar-month arithmetic the
    aggregation is built on (internal/model/subscription.go). */
module SubscriptionModel {
  import opened Wrappers

  /** A UUID, as its 128-bit value. Only equality is ever used on it. */
  type Uuid = x: int | 0 <= x < 0x1_0000_0000_0000_0000_0000_0000_0000_0000

  /** The all-zero UUID, which is what a "required" UUID must not be. */
  const NilUuid: Uuid := 0

  /** A calendar date. Time of day and time zone are not modelled. */
  datatype Date = Date(year: int, month: int, day: int)

  /** The zero value of Go's time.Time: 0001-01-01. */
  const ZeroTime := Date(1, 1, 1)

  predicate ValidDate(d: Date)
  {
    1 <= d.month <= 12 && 1 <= d.day <= 31
  }

  /** The ordinal of calendar month (year, month): consecutive months have
      consecutive ordinals, so month arithmetic becomes integer arithmetic. */
  function MonthOrdinal(year: int, month: int): (k: int)
    ensures 1 <= month <= 12 ==> k / 12 == year && k % 12 + 1 == month
  {
    year * 12 + (month - 1)
  }

  /** The year and month an ordinal stands for: the inverse of MonthOrdinal. */
  function YearOf(k: int): int { k / 12 }
  function MonthNumberOf(k: int): (m: int)
    ensures 1 <= m <= 12
  {
    k % 12 + 1
  }

  /** DATE_TRUNC('month', d): the month of a date, with its day dropped. */
  function MonthOf(d: Date): (k: int)
    ensures ValidDate(d) ==> YearOf(k) == d.year && MonthNumberOf(k) == d.month
  {
    MonthOrdinal(d.year, d.month)
  }

  /** A subscription row. EndDate None is the nil pointer, SQL NULL:
      the subscription runs indefinitely. */
  datatype Subscription = Subscription(
    id: Uuid,
    serviceName: string,
    costRub: int,
    userId: Uuid,
    startDate: Date,
    endDate: Option<Date>)

  /** The field constraints the record declares: service name, user and
      start date required (not the zero value), cost strictly positive.
      The end date is optional, and end >= start is not enforced. */
  predicate Valid(s: Subscription)
  {
    && s.serviceName != ""
    && s.costRub > 0
    && s.userId != NilUuid
    && s.startDate != ZeroTime
    && ValidDate(s.startDate)
    && (s.endDate.Some? ==> ValidDate(s.endDate.value))
  }

  function StartMonth(s: Subscription): int
  {
    MonthOf(s.startDate)
  }

  /** Whether s is billed for month m: its start month is at or before m and
      it has no end, or its end month is at or after m. */
  predicate ActiveIn(s: Subscription, m: int)
  {
    && StartMonth(s) <= m
    && (s.endDate.None? || m <= MonthOf(s.endDate.value))
  }

  lemma OrdinalRoundTrip(k: int)
    ensures MonthOrdinal(YearOf(k), MonthNumberOf(k)) == k
  {
  }

  /** Comparing ordinals is comparing (year, month) pairs lexicographically. */
  lemma OrdinalOrderIsLexicographic(y1: int, m1: int, y2: int, m2: int)
    requires 1 <= m1 <= 12 && 1 <= m2 <= 12
    ensures MonthOrdinal(y1, m1) <= MonthOrdinal(y2, m2)
            <==> y1 < y2 || (y1 == y2 && m1 <= m2)
  {
  }

  /** Truncation makes the day insignificant: two dates of the same month
      are billed identically. */
  lemma DayIsInsignificant(s: Subscription, day: int, m: int)
    ensures ActiveIn(s, m) == ActiveIn(s.(startDate := s.startDate.(day := day)), m)
    ensures s.endDate.Some? ==>
      ActiveIn(s, m) == ActiveIn(s.(endDate := Some(s.endDate.value.(day := day))), m)
  {
  }

  /** An open-ended subscription is billed in every month from its start on. */
  lemma OpenEndedActiveFromStart(s: Subscription, m: int)
    requires s.endDate.None?
    ensures ActiveIn(s, m) <==> StartMonth(s) <= m
  {
  }
}
