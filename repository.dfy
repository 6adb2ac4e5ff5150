/** SubscriptionRepo.GetTotalCost (internal/repository/subscription.go):
    the period-cost query, modelled clause by clause on a snapshot of the
    subscriptions table, and a closed-form reference definition of the
    same total. */
module Repository {
  import opened Wrappers
  import opened SubscriptionModel

  /** The two nullable query parameters: $1 (user_id) and $2 (service_name). */
  datatype Filters = Filters(userId: Option<Uuid>, serviceName: Option<string>)

  const NoFilters := Filters(None, None)

  /** The WHERE clause: a NULL parameter matches every row, a present one
      matches exactly. */
  predicate Matches(f: Filters, s: Subscription)
  {
    && (f.userId.None? || s.userId == f.userId.value)
    && (f.serviceName.None? || s.serviceName == f.serviceName.value)
  }

  /** generate_series(first, last, '1 month'): every month from first to
      last inclusive, in one-month steps; empty when first is after last. */
  function MonthSeries(first: int, last: int): (months: seq<int>)
    ensures |months| == if first <= last then last - first + 1 else 0
    ensures forall k :: 0 <= k < |months| ==> months[k] == first + k
    ensures forall m :: m in months <==> first <= m <= last
    decreases last - first
  {
    if first > last then [] else [first] + MonthSeries(first + 1, last)
  }

  /** make_date's year numbering: there is no year 0 and a negative year is
      BC, so year -1 (1 BC) is the year just before year 1. Dates of
      subscriptions, like Go's time.Time, number years astronomically
      (year 0 is 1 BC), and so does MonthOrdinal. */
  function AstronomicalYear(year: int): int
  {
    if year < 0 then year + 1 else year
  }

  /** The make_date year that names an astronomical year. */
  function QueryYear(astronomical: int): (year: int)
    ensures year != 0 && AstronomicalYear(year) == astronomical
  {
    if astronomical <= 0 then astronomical - 1 else astronomical
  }

  /** The arguments make_date accepts as a year and a month. */
  predicate ValidMakeDate(year: int, month: int)
  {
    year != 0 && 1 <= month <= 12
  }

  /** DATE_TRUNC('month', make_date(year, month, 1)) as a month ordinal. */
  function QueryMonth(year: int, month: int): (k: int)
    ensures ValidMakeDate(year, month) ==> YearOf(k) == AstronomicalYear(year) && MonthNumberOf(k) == month
  {
    MonthOrdinal(AstronomicalYear(year), month)
  }

  /** The period_months CTE of a query window: exactly the months from the
      window's first month to its last, both included. */
  function Window(startMonth: int, startYear: int, endMonth: int, endYear: int): (w: seq<int>)
    ensures forall m :: m in w <==> QueryMonth(startYear, startMonth) <= m <= QueryMonth(endYear, endMonth)
  {
    MonthSeries(QueryMonth(startYear, startMonth), QueryMonth(endYear, endMonth))
  }

  /** The cost_rub of each joined row for one month: one entry per
      subscription that passes the WHERE clause and the JOIN condition. */
  function MonthRows(subs: seq<Subscription>, f: Filters, m: int): (rows: seq<int>)
    ensures |rows| <= |subs|
    ensures forall x :: x in rows ==> exists s :: s in subs && Matches(f, s) && ActiveIn(s, m) && x == s.costRub
  {
    if subs == [] then []
    else (if Matches(f, subs[0]) && ActiveIn(subs[0], m) then [subs[0].costRub] else [])
         + MonthRows(subs[1..], f, m)
  }

  /** The cost_rub column of the whole join of period_months with the table. */
  function JoinedCosts(subs: seq<Subscription>, f: Filters, months: seq<int>): (costs: seq<int>)
    ensures forall x :: x in costs ==>
              exists i, s :: 0 <= i < |months| && s in subs && Matches(f, s) && ActiveIn(s, months[i]) && x == s.costRub
  {
    if months == [] then [] else MonthRows(subs, f, months[0]) + JoinedCosts(subs, f, months[1..])
  }

  function Sum(xs: seq<int>): int
  {
    if xs == [] then 0 else xs[0] + Sum(xs[1..])
  }

  /** SQL SUM: NULL over no rows, the arithmetic sum otherwise. */
  function SqlSum(xs: seq<int>): (r: Option<int>)
    ensures r.None? <==> xs == []
    ensures r.Some? ==> r.value == Sum(xs)
  {
    if xs == [] then None else Some(Sum(xs))
  }

  /** SELECT COALESCE(SUM(s.cost_rub), 0) over the join. */
  function TotalCost(subs: seq<Subscription>, f: Filters,
                     startMonth: int, startYear: int, endMonth: int, endYear: int): (total: int)
    ensures total == Sum(JoinedCosts(subs, f, Window(startMonth, startYear, endMonth, endYear)))
    ensures JoinedCosts(subs, f, Window(startMonth, startYear, endMonth, endYear)) == [] ==> total == 0
  {
    match SqlSum(JoinedCosts(subs, f, Window(startMonth, startYear, endMonth, endYear)))
    case None => 0
    case Some(t) => t
  }

  /** The backing store as seen by one query: a consistent snapshot of the
      table, or a failure of the database round-trip. */
  datatype Store = Unavailable | Snapshot(rows: seq<Subscription>)

  /** A failed round-trip, or make_date rejecting its arguments. */
  datatype StoreError = StoreUnavailable | DateOutOfRange

  // ---------------------------------------------------------------------
  // Reference definition: per subscription, cost times billed months.
  // ---------------------------------------------------------------------

  function Max(a: int, b: int): int { if a < b then b else a }
  function Min(a: int, b: int): int { if a < b then a else b }

  /** How many months of [first, last] subscription s is billed for: the
      length of the overlap of that range with [start month, end month]
      (an absent end month leaves the range open to the right). */
  function ActiveMonthCount(s: Subscription, first: int, last: int): (n: nat)
    ensures n <= if first <= last then last - first + 1 else 0
  {
    var lo := Max(first, StartMonth(s));
    var hi := if s.endDate.None? then last else Min(last, MonthOf(s.endDate.value));
    if lo <= hi then hi - lo + 1 else 0
  }

  /** The total in closed form: the sum, over the subscriptions that pass
      the filters, of cost_rub times the billed months. */
  function BilledTotal(subs: seq<Subscription>, f: Filters, first: int, last: int): int
  {
    if subs == [] then 0
    else (if Matches(f, subs[0]) then subs[0].costRub * ActiveMonthCount(subs[0], first, last) else 0)
         + BilledTotal(subs[1..], f, first, last)
  }

  /** The number of months in a list that s is billed for. */
  function CountActive(s: Subscription, months: seq<int>): nat
  {
    if months == [] then 0
    else (if ActiveIn(s, months[0]) then 1 else 0) + CountActive(s, months[1..])
  }

  /** Sum over matching subscriptions of cost times active months in a list. */
  function PerSubscriptionTotal(subs: seq<Subscription>, f: Filters, months: seq<int>): int
  {
    if subs == [] then 0
    else (if Matches(f, subs[0]) then subs[0].costRub * CountActive(subs[0], months) else 0)
         + PerSubscriptionTotal(subs[1..], f, months)
  }

  // ---------------------------------------------------------------------
  // The window
  // ---------------------------------------------------------------------

  /** The window holds exactly the months from its start to its end, both
      included, in increasing one-month steps. */
  lemma WindowIsInclusiveRange(startMonth: int, startYear: int, endMonth: int, endYear: int)
    ensures var w := Window(startMonth, startYear, endMonth, endYear);
            var first, last := QueryMonth(startYear, startMonth), QueryMonth(endYear, endMonth);
            && (forall m :: m in w <==> first <= m <= last)
            && (forall k :: 0 < k < |w| ==> w[k] == w[k - 1] + 1)
  {
    var w := Window(startMonth, startYear, endMonth, endYear);
    var first, last := QueryMonth(startYear, startMonth), QueryMonth(endYear, endMonth);
    forall m | first <= m <= last ensures m in w {
      assert w[m - first] == m;
    }
  }

  lemma SingleMonthWindow(month: int, year: int)
    ensures Window(month, year, month, year) == [QueryMonth(year, month)]
  {
  }

  // ---------------------------------------------------------------------
  // The join total equals the reference definition
  // ---------------------------------------------------------------------

  lemma {:induction false} SumAppend(a: seq<int>, b: seq<int>)
    ensures Sum(a + b) == Sum(a) + Sum(b)
    decreases |a|
  {
    if a == [] {
      assert a + b == b;
    } else {
      assert (a + b)[1..] == a[1..] + b;
      SumAppend(a[1..], b);
    }
  }

  lemma {:induction false} PerSubscriptionNoMonths(subs: seq<Subscription>, f: Filters)
    ensures PerSubscriptionTotal(subs, f, []) == 0
    decreases |subs|
  {
    if subs != [] {
      PerSubscriptionNoMonths(subs[1..], f);
    }
  }

  /** Adding one month in front adds that month's rows to every subscription's share. */
  lemma {:induction false} PerSubscriptionCons(subs: seq<Subscription>, f: Filters, m: int, rest: seq<int>)
    ensures PerSubscriptionTotal(subs, f, [m] + rest)
            == Sum(MonthRows(subs, f, m)) + PerSubscriptionTotal(subs, f, rest)
    decreases |subs|
  {
    if subs != [] {
      var s := subs[0];
      assert ([m] + rest)[1..] == rest;
      assert CountActive(s, [m] + rest) == (if ActiveIn(s, m) then 1 else 0) + CountActive(s, rest);
      assert s.costRub * CountActive(s, [m] + rest)
             == (if ActiveIn(s, m) then s.costRub else 0) + s.costRub * CountActive(s, rest);
      var head := if Matches(f, s) && ActiveIn(s, m) then [s.costRub] else [];
      SumAppend(head, MonthRows(subs[1..], f, m));
      PerSubscriptionCons(subs[1..], f, m, rest);
    }
  }

  /** Exchanging the two sums: summing the joined rows month by month gives
      the per-subscription cost times active months. */
  lemma {:induction false} JoinIsPerSubscription(subs: seq<Subscription>, f: Filters, months: seq<int>)
    ensures Sum(JoinedCosts(subs, f, months)) == PerSubscriptionTotal(subs, f, months)
    decreases |months|
  {
    if months == [] {
      PerSubscriptionNoMonths(subs, f);
    } else {
      SumAppend(MonthRows(subs, f, months[0]), JoinedCosts(subs, f, months[1..]));
      JoinIsPerSubscription(subs, f, months[1..]);
      assert months == [months[0]] + months[1..];
      PerSubscriptionCons(subs, f, months[0], months[1..]);
    }
  }

  /** Counting the active months of a generated series gives the closed-form overlap. */
  lemma {:induction false} CountActiveInSeries(s: Subscription, first: int, last: int)
    ensures CountActive(s, MonthSeries(first, last)) == ActiveMonthCount(s, first, last)
    decreases last - first
  {
    if first <= last {
      var series := MonthSeries(first, last);
      assert series[1..] == MonthSeries(first + 1, last);
      CountActiveInSeries(s, first + 1, last);
    }
  }

  lemma {:induction false} PerSubscriptionOverSeries(subs: seq<Subscription>, f: Filters, first: int, last: int)
    ensures PerSubscriptionTotal(subs, f, MonthSeries(first, last)) == BilledTotal(subs, f, first, last)
    decreases |subs|
  {
    if subs != [] {
      CountActiveInSeries(subs[0], first, last);
      PerSubscriptionOverSeries(subs[1..], f, first, last);
    }
  }

  /** The query's total is the sum, over the subscriptions passing both
      filters, of cost_rub times the number of window months in which the
      subscription is active. */
  lemma {:induction false} TotalCostIsBilledTotal(subs: seq<Subscription>, f: Filters,
                                 startMonth: int, startYear: int, endMonth: int, endYear: int)
    ensures TotalCost(subs, f, startMonth, startYear, endMonth, endYear)
            == BilledTotal(subs, f, QueryMonth(startYear, startMonth), QueryMonth(endYear, endMonth))
  {
    var first, last := QueryMonth(startYear, startMonth), QueryMonth(endYear, endMonth);
    JoinIsPerSubscription(subs, f, MonthSeries(first, last));
    PerSubscriptionOverSeries(subs, f, first, last);
  }

  /** The repository call: a store failure, or a year or month that
      make_date rejects, is returned as an error with no total; otherwise
      the total over the snapshot. */
  function GetTotalCost(store: Store, f: Filters,
                        startMonth: int, startYear: int, endMonth: int, endYear: int): (r: Result<int, StoreError>)
    ensures r.Failure? <==>
              store.Unavailable? || !ValidMakeDate(startYear, startMonth) || !ValidMakeDate(endYear, endMonth)
    ensures r.Success? ==> r.value == BilledTotal(store.rows, f, QueryMonth(startYear, startMonth), QueryMonth(endYear, endMonth))
  {
    if store.Unavailable? then Failure(StoreUnavailable)
    else if !ValidMakeDate(startYear, startMonth) || !ValidMakeDate(endYear, endMonth) then Failure(DateOutOfRange)
    else
      TotalCostIsBilledTotal(store.rows, f, startMonth, startYear, endMonth, endYear);
      Success(TotalCost(store.rows, f, startMonth, startYear, endMonth, endYear))
  }

  /** For years make_date accepts, the order of query months is the
      lexicographic order of (year, month) as written, across the BC/AD
      boundary too. */
  lemma QueryMonthOrderIsLexicographic(y1: int, m1: int, y2: int, m2: int)
    requires ValidMakeDate(y1, m1) && ValidMakeDate(y2, m2)
    ensures QueryMonth(y1, m1) <= QueryMonth(y2, m2) <==> y1 < y2 || (y1 == y2 && m1 <= m2)
  {
    OrdinalOrderIsLexicographic(AstronomicalYear(y1), m1, AstronomicalYear(y2), m2);
  }

  /** December of 1 BC is followed directly by January of 1 AD: the window
      from one to the other has two months. */
  lemma NoYearZero()
    ensures QueryMonth(1, 1) == QueryMonth(-1, 12) + 1
    ensures |Window(12, -1, 1, 1)| == 2
  {
  }
}
