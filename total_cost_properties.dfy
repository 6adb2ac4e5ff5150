/** Properties of the period-cost query of module Repository: boundaries,
    open-ended subscriptions, filters, the empty result, and a worked
    example. */
module TotalCostProperties {
  import opened Wrappers
  import opened SubscriptionModel
  import opened Repository

  /** A window whose start comes after its end generates no months, so the
      query returns 0 whatever the table holds. */
  lemma ReversedWindowIsZero(subs: seq<Subscription>, f: Filters,
                             startMonth: int, startYear: int, endMonth: int, endYear: int)
    requires QueryMonth(startYear, startMonth) > QueryMonth(endYear, endMonth)
    ensures Window(startMonth, startYear, endMonth, endYear) == []
    ensures TotalCost(subs, f, startMonth, startYear, endMonth, endYear) == 0
  {
  }

  // ---------------------------------------------------------------------
  // Zero exactly when nothing is billed
  // ---------------------------------------------------------------------

  /** Some subscription passing the filters is active in some window month. */
  predicate SomePairJoins(subs: seq<Subscription>, f: Filters, months: seq<int>)
  {
    exists i, j :: 0 <= i < |months| && 0 <= j < |subs| && Matches(f, subs[j]) && ActiveIn(subs[j], months[i])
  }

  predicate AllCostsPositive(subs: seq<Subscription>)
  {
    forall j :: 0 <= j < |subs| ==> subs[j].costRub > 0
  }

  lemma {:induction false} MonthRowsEmpty(subs: seq<Subscription>, f: Filters, m: int)
    ensures MonthRows(subs, f, m) == []
            <==> forall j :: 0 <= j < |subs| ==> !(Matches(f, subs[j]) && ActiveIn(subs[j], m))
    decreases |subs|
  {
    if subs != [] {
      MonthRowsEmpty(subs[1..], f, m);
      assert forall j :: 1 <= j < |subs| ==> subs[j] == subs[1..][j - 1];
    }
  }

  /** The join is empty exactly when no (month, subscription) pair matches. */
  lemma {:induction false} JoinEmptyIffNoPair(subs: seq<Subscription>, f: Filters, months: seq<int>)
    ensures JoinedCosts(subs, f, months) == [] <==> !SomePairJoins(subs, f, months)
    decreases |months|
  {
    if months != [] {
      MonthRowsEmpty(subs, f, months[0]);
      JoinEmptyIffNoPair(subs, f, months[1..]);
      if SomePairJoins(subs, f, months) {
        var i, j :| 0 <= i < |months| && 0 <= j < |subs| && Matches(f, subs[j]) && ActiveIn(subs[j], months[i]);
        if i > 0 {
          assert months[1..][i - 1] == months[i];
        }
      }
      if SomePairJoins(subs, f, months[1..]) {
        var i, j :| 0 <= i < |months[1..]| && 0 <= j < |subs| && Matches(f, subs[j]) && ActiveIn(subs[j], months[1..][i]);
        assert months[i + 1] == months[1..][i];
      }
    }
  }

  lemma {:induction false} MonthRowsPositive(subs: seq<Subscription>, f: Filters, m: int)
    requires AllCostsPositive(subs)
    ensures forall k :: 0 <= k < |MonthRows(subs, f, m)| ==> MonthRows(subs, f, m)[k] > 0
    decreases |subs|
  {
    if subs != [] {
      MonthRowsPositive(subs[1..], f, m);
    }
  }

  lemma {:induction false} JoinedCostsPositive(subs: seq<Subscription>, f: Filters, months: seq<int>)
    requires AllCostsPositive(subs)
    ensures forall k :: 0 <= k < |JoinedCosts(subs, f, months)| ==> JoinedCosts(subs, f, months)[k] > 0
    decreases |months|
  {
    if months != [] {
      MonthRowsPositive(subs, f, months[0]);
      JoinedCostsPositive(subs, f, months[1..]);
    }
  }

  lemma {:induction false} SumOfPositives(xs: seq<int>)
    requires forall k :: 0 <= k < |xs| ==> xs[k] > 0
    ensures xs == [] <==> Sum(xs) == 0
    ensures Sum(xs) >= 0
    decreases |xs|
  {
    if xs != [] {
      SumOfPositives(xs[1..]);
    }
  }

  /** For rows that meet the record's declared constraints (so every cost
      is strictly positive), the total is 0 exactly when no subscription
      passing the filters is active in any window month: COALESCE turns the
      empty SUM into 0, never an error. */
  lemma ZeroIffNothingBilled(subs: seq<Subscription>, f: Filters,
                             startMonth: int, startYear: int, endMonth: int, endYear: int)
    requires forall j :: 0 <= j < |subs| ==> Valid(subs[j])
    ensures var total := TotalCost(subs, f, startMonth, startYear, endMonth, endYear);
            total >= 0 &&
            (total == 0 <==> !SomePairJoins(subs, f, Window(startMonth, startYear, endMonth, endYear)))
  {
    var w := Window(startMonth, startYear, endMonth, endYear);
    JoinEmptyIffNoPair(subs, f, w);
    JoinedCostsPositive(subs, f, w);
    SumOfPositives(JoinedCosts(subs, f, w));
  }

  // ---------------------------------------------------------------------
  // Filters
  // ---------------------------------------------------------------------

  /** The subscriptions that pass the WHERE clause, in table order. */
  function Select(subs: seq<Subscription>, f: Filters): (r: seq<Subscription>)
    ensures forall s :: s in r <==> s in subs && Matches(f, s)
    ensures |r| <= |subs|
  {
    if subs == [] then []
    else (if Matches(f, subs[0]) then [subs[0]] else []) + Select(subs[1..], f)
  }

  /** Absent filters let every subscription through. */
  lemma {:induction false} NoFiltersSelectAll(subs: seq<Subscription>)
    ensures Select(subs, NoFilters) == subs
    decreases |subs|
  {
    if subs != [] {
      NoFiltersSelectAll(subs[1..]);
    }
  }

  /** A present user filter keeps exactly the subscriptions of that user,
      a present service filter exactly those of that service name. */
  lemma PresentFiltersAreExact(subs: seq<Subscription>, user: Uuid, service: string)
    ensures forall s :: s in Select(subs, Filters(Some(user), None)) <==> s in subs && s.userId == user
    ensures forall s :: s in Select(subs, Filters(None, Some(service))) <==> s in subs && s.serviceName == service
  {
  }

  lemma {:induction false} BilledTotalOfSelection(subs: seq<Subscription>, f: Filters, first: int, last: int)
    ensures BilledTotal(subs, f, first, last) == BilledTotal(Select(subs, f), NoFilters, first, last)
    decreases |subs|
  {
    if subs != [] {
      BilledTotalOfSelection(subs[1..], f, first, last);
      var head := if Matches(f, subs[0]) then [subs[0]] else [];
      BilledTotalAppend(head, Select(subs[1..], f), NoFilters, first, last);
    }
  }

  /** Filtering restricts the sum to exactly the matching subset: the
      filtered total is the unfiltered total over the selected rows. */
  lemma FilteredTotalIsTotalOfSelection(subs: seq<Subscription>, f: Filters,
                                        startMonth: int, startYear: int, endMonth: int, endYear: int)
    ensures TotalCost(subs, f, startMonth, startYear, endMonth, endYear)
            == TotalCost(Select(subs, f), NoFilters, startMonth, startYear, endMonth, endYear)
  {
    TotalCostIsBilledTotal(subs, f, startMonth, startYear, endMonth, endYear);
    TotalCostIsBilledTotal(Select(subs, f), NoFilters, startMonth, startYear, endMonth, endYear);
    BilledTotalOfSelection(subs, f, QueryMonth(startYear, startMonth), QueryMonth(endYear, endMonth));
  }

  // ---------------------------------------------------------------------
  // Additivity and per-subscription contributions
  // ---------------------------------------------------------------------

  lemma {:induction false} BilledTotalAppend(a: seq<Subscription>, b: seq<Subscription>, f: Filters, first: int, last: int)
    ensures BilledTotal(a + b, f, first, last) == BilledTotal(a, f, first, last) + BilledTotal(b, f, first, last)
    decreases |a|
  {
    if a == [] {
      assert a + b == b;
    } else {
      assert (a + b)[1..] == a[1..] + b;
      BilledTotalAppend(a[1..], b, f, first, last);
    }
  }

  /** The total over two groups of rows is the sum of their totals. */
  lemma TotalCostAppend(a: seq<Subscription>, b: seq<Subscription>, f: Filters,
                        startMonth: int, startYear: int, endMonth: int, endYear: int)
    ensures TotalCost(a + b, f, startMonth, startYear, endMonth, endYear)
            == TotalCost(a, f, startMonth, startYear, endMonth, endYear)
             + TotalCost(b, f, startMonth, startYear, endMonth, endYear)
  {
    TotalCostIsBilledTotal(a + b, f, startMonth, startYear, endMonth, endYear);
    TotalCostIsBilledTotal(a, f, startMonth, startYear, endMonth, endYear);
    TotalCostIsBilledTotal(b, f, startMonth, startYear, endMonth, endYear);
    BilledTotalAppend(a, b, f, QueryMonth(startYear, startMonth), QueryMonth(endYear, endMonth));
  }

  /** What a single subscription contributes to a window. */
  lemma SingleContribution(s: Subscription, f: Filters,
                           startMonth: int, startYear: int, endMonth: int, endYear: int)
    ensures TotalCost([s], f, startMonth, startYear, endMonth, endYear)
            == if Matches(f, s)
               then s.costRub * ActiveMonthCount(s, QueryMonth(startYear, startMonth), QueryMonth(endYear, endMonth))
               else 0
  {
    TotalCostIsBilledTotal([s], f, startMonth, startYear, endMonth, endYear);
  }

  /** A subscription that starts after the window's last month, or ends
      before its first month, adds nothing to the total. */
  lemma OutsideWindowContributesNothing(subs: seq<Subscription>, s: Subscription, f: Filters,
                                        startMonth: int, startYear: int, endMonth: int, endYear: int)
    requires || StartMonth(s) > QueryMonth(endYear, endMonth)
             || (s.endDate.Some? && MonthOf(s.endDate.value) < QueryMonth(startYear, startMonth))
    ensures TotalCost(subs + [s], f, startMonth, startYear, endMonth, endYear)
            == TotalCost(subs, f, startMonth, startYear, endMonth, endYear)
  {
    TotalCostAppend(subs, [s], f, startMonth, startYear, endMonth, endYear);
    SingleContribution(s, f, startMonth, startYear, endMonth, endYear);
  }

  /** An open-ended subscription is billed in every window month from its
      start month on: a window entirely after its start bills it once per month. */
  lemma OpenEndedBilledEveryMonth(s: Subscription,
                                  startMonth: int, startYear: int, endMonth: int, endYear: int)
    requires s.endDate.None?
    requires StartMonth(s) <= QueryMonth(startYear, startMonth) <= QueryMonth(endYear, endMonth)
    ensures TotalCost([s], NoFilters, startMonth, startYear, endMonth, endYear)
            == s.costRub * |Window(startMonth, startYear, endMonth, endYear)|
  {
    SingleContribution(s, NoFilters, startMonth, startYear, endMonth, endYear);
  }

  /** An open-ended subscription that starts inside the window is billed
      for every window month from its start month to the window's last. */
  lemma OpenEndedStartingInWindow(s: Subscription,
                                  startMonth: int, startYear: int, endMonth: int, endYear: int)
    requires s.endDate.None?
    requires QueryMonth(startYear, startMonth) <= StartMonth(s) <= QueryMonth(endYear, endMonth)
    ensures TotalCost([s], NoFilters, startMonth, startYear, endMonth, endYear)
            == s.costRub * (QueryMonth(endYear, endMonth) - StartMonth(s) + 1)
  {
    SingleContribution(s, NoFilters, startMonth, startYear, endMonth, endYear);
  }

  /** Both dates are truncated to their month, so the whole start month and
      the whole end month are billed, whatever the day of either date. The
      one-month windows name those months with make_date's year numbering. */
  lemma BoundaryMonthsBilledInFull(s: Subscription)
    requires ValidDate(s.startDate)
    requires s.endDate.Some? && ValidDate(s.endDate.value)
    requires StartMonth(s) <= MonthOf(s.endDate.value)
    ensures var d := s.startDate;
            var y := QueryYear(d.year);
            TotalCost([s], NoFilters, d.month, y, d.month, y) == s.costRub
    ensures var e := s.endDate.value;
            var y := QueryYear(e.year);
            TotalCost([s], NoFilters, e.month, y, e.month, y) == s.costRub
  {
    var d, e := s.startDate, s.endDate.value;
    var yd, ye := QueryYear(d.year), QueryYear(e.year);
    SingleContribution(s, NoFilters, d.month, yd, d.month, yd);
    SingleContribution(s, NoFilters, e.month, ye, e.month, ye);
  }

  /** A subscription's billed months in two adjacent ranges add up. */
  lemma ActiveMonthCountSplit(s: Subscription, first: int, mid: int, last: int)
    requires first <= mid < last
    ensures ActiveMonthCount(s, first, last) == ActiveMonthCount(s, first, mid) + ActiveMonthCount(s, mid + 1, last)
  {
  }

  /** Splitting a window in two splits the total. */
  lemma {:induction false} WindowSplit(subs: seq<Subscription>, f: Filters, first: int, mid: int, last: int)
    requires first <= mid < last
    ensures BilledTotal(subs, f, first, last) == BilledTotal(subs, f, first, mid) + BilledTotal(subs, f, mid + 1, last)
    decreases |subs|
  {
    if subs != [] {
      var s := subs[0];
      var a, b := ActiveMonthCount(s, first, mid), ActiveMonthCount(s, mid + 1, last);
      ActiveMonthCountSplit(s, first, mid, last);
      assert s.costRub * (a + b) == s.costRub * a + s.costRub * b;
      WindowSplit(subs[1..], f, first, mid, last);
    }
  }

  // ---------------------------------------------------------------------
  // Worked example
  // ---------------------------------------------------------------------

  /** A runs 2024-01..2024-03 at 100, B runs from 2024-02 with no end at 50. */
  function ExampleTable(): seq<Subscription>
  {
    [ Subscription(1, "A", 100, 7, Date(2024, 1, 1), Some(Date(2024, 3, 1))),
      Subscription(2, "B", 50, 7, Date(2024, 2, 1), None) ]
  }

  lemma WorkedExample()
    ensures TotalCost(ExampleTable(), NoFilters, 1, 2024, 2, 2024) == 250
    ensures TotalCost(ExampleTable(), NoFilters, 3, 2024, 3, 2024) == 150
    ensures TotalCost(ExampleTable(), NoFilters, 4, 2024, 4, 2024) == 50
  {
    TotalCostIsBilledTotal(ExampleTable(), NoFilters, 1, 2024, 2, 2024);
    TotalCostIsBilledTotal(ExampleTable(), NoFilters, 3, 2024, 3, 2024);
    TotalCostIsBilledTotal(ExampleTable(), NoFilters, 4, 2024, 4, 2024);
  }
}
