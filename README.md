# subscription-aggregator: a Dafny model of the period-cost query

The service stores user subscriptions and has one endpoint with real logic:
`GET /subscriptions/total-cost`. It returns the total monthly cost of
all subscriptions that are active during a window of whole calendar months.
Two optional filters narrow the total to one owner and to one service name.
This project models three parts of the source:

- the SQL query behind `SubscriptionRepo.GetTotalCost`. It generates the
  months of the window, joins them to the subscriptions active in each
  month, applies the owner and service filters, and computes
  `COALESCE(SUM(cost_rub), 0)`;
- the validation in `Handler.GetTotalCost`. It turns the query string into
  optional filters and integer bounds, and rejects bad requests before the
  store is read;
- the `Subscription` record and its declared field constraints.

A calendar month is the ordinal `year*12 + (month-1)`, so `DATE_TRUNC('month', d)`
just drops the day of `d`. Subscription dates count years astronomically,
as Go's `time.Time` does (year 0 is 1 BC). The window's bounds go through
PostgreSQL's `make_date`, which has no year 0 and reads a negative year as
BC. The model therefore maps the query's years onto the same line, and
fails the query where `make_date` fails. The store is a snapshot
`seq<Subscription>` or an abstract failure. Filters are `Option`s.

Files:
- `wrappers.dfy`: `Option` and `Result`.
- `subscription_model.dfy` (module `SubscriptionModel`): the record, dates,
  month ordinals and the "active in month m" predicate.
- `repository.dfy` (module `Repository`): the query, modelled clause by
  clause. `BilledTotal` is a closed-form reference definition (cost times
  months of overlap, per subscription), and `TotalCostIsBilledTotal` proves
  it equal to the query.
- `total_cost_properties.dfy` (module `TotalCostProperties`): the empty
  result, filters, boundaries, open-ended subscriptions, additivity, the
  window split and the worked example.
- `handler.dfy` (module `Handler`): `strconv.Atoi` with its error dropped,
  the three validation checks in source order, and the HTTP response.

Three behaviours of the code worth knowing:
- A month outside 1..12 is its own rejection ("month must be 1-12"). It is
  not reported as an invalid period.
- An empty service name is turned into "no filter" by the handler. The
  repository itself treats a present empty string as an exact match on `""`.
- A missing year is not rejected by itself. It parses to 0. A missing start
  year before a positive end year passes validation, reaches the store and
  fails in `make_date`, so the answer is 500. A missing end year after a
  positive start year is rejected as an invalid period.

## Model

| member | source | states |
|---|---|---|
| SubscriptionModel.Valid | internal/model/subscription.go:8-15 | the record's declared constraints: service name, user and start date required (not the zero value), `cost_rub > 0`, dates with a month in 1..12; the end date optional and not ordered after the start |
| SubscriptionModel.ActiveIn | internal/repository/subscription.go:90-91 | the JOIN's ON clause: the month is at or after the truncated start, and the end is NULL or its truncated month is at or after the month |
| SubscriptionModel.MonthOrdinal | internal/repository/subscription.go:82-83 | for a month in 1..12, the ordinal determines the year (`k / 12`) and the month (`k % 12 + 1`) |
| SubscriptionModel.MonthOf | internal/repository/subscription.go:90-91 | `DATE_TRUNC('month', d)` keeps exactly the year and month of a valid date |
| SubscriptionModel.OrdinalRoundTrip | internal/repository/subscription.go:82-83 | every ordinal is the month of its own (year, month) decoding |
| SubscriptionModel.OrdinalOrderIsLexicographic | internal/handler/subscription.go:199 | comparing ordinals is the same as comparing (year, month) pairs lexicographically, both directions |
| SubscriptionModel.DayIsInsignificant | internal/model/subscription.go:13-14 | changing the day of the start or end date never changes whether a subscription is billed in a month |
| SubscriptionModel.OpenEndedActiveFromStart | internal/repository/subscription.go:91 | with a NULL end date, a subscription is active in month m exactly when m is at or after its start month |
| Repository.Matches | internal/repository/subscription.go:92-94 | the WHERE clause: a NULL parameter matches every row, a present one only rows with an equal `user_id` or `service_name` |
| Repository.MonthSeries | internal/repository/subscription.go:81-85 | the generated series has `last - first + 1` months (none when reversed), its k-th month is `first + k`, and it holds exactly the months from first to last |
| Repository.QueryYear | internal/repository/subscription.go:82-83 | every astronomical year has a `make_date` year naming it, and that year is never 0 |
| Repository.QueryMonth | internal/repository/subscription.go:82-83 | for arguments `make_date` accepts, the month ordinal has the month as given and the year shifted by one for BC years |
| Repository.QueryMonthOrderIsLexicographic | internal/repository/subscription.go:82-83 | for years other than 0, the order of window bounds is the lexicographic order of (year, month) as written, across the BC/AD boundary |
| Repository.NoYearZero | internal/repository/subscription.go:81-85 | December 1 BC (year -1) is directly followed by January 1 AD: that window has two months |
| Repository.Window | internal/repository/subscription.go:80-86 | the `period_months` CTE holds exactly the months from the start bound to the end bound inclusive |
| Repository.WindowIsInclusiveRange | internal/repository/subscription.go:81-85 | a month is in the window exactly when it lies between the start and end months inclusive; consecutive entries are one month apart |
| Repository.SingleMonthWindow | internal/repository/subscription.go:81-85 | a window whose start equals its end holds exactly that one month |
| Repository.MonthRows | internal/repository/subscription.go:87-94 | one month's joined rows number at most the table's rows, and each is the `cost_rub` of a row that passes the filters and is active in that month |
| Repository.JoinedCosts | internal/repository/subscription.go:87-94 | every joined row is the `cost_rub` of a filtered subscription active in some window month |
| Repository.TotalCost | internal/repository/subscription.go:79-95 | `COALESCE(SUM(cost_rub), 0)`: `SqlSum` gives SQL's NULL over no rows, and COALESCE turns it into 0; the result is the sum of the joined rows' `cost_rub`, and 0 when the join is empty |
| Repository.ActiveMonthCount | internal/repository/subscription.go:89-91 | the billed months in a window never exceed the window's length |
| Repository.JoinIsPerSubscription | internal/repository/subscription.go:87-91 | summing the join month by month equals summing, per subscription, cost times active months |
| Repository.CountActiveInSeries | internal/repository/subscription.go:81-91 | the active months of a subscription in the series equal the closed-form overlap of the two month ranges |
| Repository.TotalCostIsBilledTotal | internal/repository/subscription.go:80-94 | the query total is the sum, over subscriptions passing both filters, of `cost_rub` times the window months m with start month <= m and (no end or m <= end month) |
| Repository.GetTotalCost | internal/repository/subscription.go:97-107 | the call fails, with no total, exactly when the store fails or `make_date` rejects a bound (year 0, or a month outside 1..12); otherwise the total equals the reference total over the snapshot |
| TotalCostProperties.ReversedWindowIsZero | internal/repository/subscription.go:81-87 | a window whose start is after its end generates no months and totals 0 |
| TotalCostProperties.JoinEmptyIffNoPair | internal/repository/subscription.go:87-94 | the join is empty exactly when no (month, subscription) pair passes the filters and the activity test |
| TotalCostProperties.ZeroIffNothingBilled | internal/repository/subscription.go:87 | for rows meeting the record's constraints (`cost_rub > 0`), the total is non-negative, and it is 0 exactly when no pair joins; an empty join is 0, not an error |
| TotalCostProperties.Select | internal/repository/subscription.go:92-94 | the rows the WHERE clause keeps are exactly the table rows that match the filters |
| TotalCostProperties.NoFiltersSelectAll | internal/repository/subscription.go:93-94 | absent owner and service filters keep every row, in order |
| TotalCostProperties.PresentFiltersAreExact | internal/repository/subscription.go:93-94 | a present user filter keeps exactly that user's rows; a present service filter keeps exactly the rows with that service name |
| TotalCostProperties.FilteredTotalIsTotalOfSelection | internal/repository/subscription.go:92-94 | the filtered total is the unfiltered total over exactly the matching rows |
| TotalCostProperties.TotalCostAppend | internal/repository/subscription.go:87-94 | the total over two groups of rows is the sum of their totals |
| TotalCostProperties.SingleContribution | internal/repository/subscription.go:89-94 | one subscription contributes `cost_rub` times its overlap months if it passes the filters, and 0 otherwise |
| TotalCostProperties.OutsideWindowContributesNothing | internal/repository/subscription.go:89-91 | a subscription that starts after the window's last month, or ends before its first month, leaves the total unchanged |
| TotalCostProperties.OpenEndedBilledEveryMonth | internal/repository/subscription.go:91 | an open-ended subscription that started by the window's first month is billed `cost_rub` for every window month |
| TotalCostProperties.OpenEndedStartingInWindow | internal/repository/subscription.go:90-91 | an open-ended subscription starting inside the window is billed `cost_rub` for each month from its start month to the window's last |
| TotalCostProperties.BoundaryMonthsBilledInFull | internal/repository/subscription.go:90-91 | whatever their day, the whole start month and the whole end month are billed |
| TotalCostProperties.ActiveMonthCountSplit | internal/repository/subscription.go:89-91 | a subscription's billed months in two adjacent ranges add up to those in their union |
| TotalCostProperties.WindowSplit | internal/repository/subscription.go:80-91 | splitting a window at any month splits the total into the totals of the two parts |
| TotalCostProperties.WorkedExample | internal/repository/subscription.go:79-95 | A (2024-01..2024-03, 100) and B (from 2024-02, 50) total 250 for 2024-01..02, 150 for 2024-03 and 50 for 2024-04 |
| Handler.ScanDigits | internal/handler/subscription.go:189-192 | the digit loop of `strconv.Atoi`: a range error exactly when the leading digits exceed 2^64 - 1, otherwise the value of an all-digit string, otherwise a syntax error |
| Handler.AtoiIgnoringError | internal/handler/subscription.go:189-192 | an optional sign and digits give their value clamped to int64; any other string gives 0, unless its leading digits already overflow, when it saturates |
| Handler.ItoaIsDecimal | internal/handler/subscription.go:189-192 | the decimal form of an integer is a well-formed numeral with that value |
| Handler.AtoiOfItoa | internal/handler/subscription.go:189-192 | the decimal form of every int64 parses back to itself |
| Handler.AtoiSaturates | internal/handler/subscription.go:189-192 | a decimal value outside int64 parses to the nearest int64 bound rather than to 0 |
| Handler.TrailingJunk | internal/handler/subscription.go:189-192 | digits followed by a stray character parse to 0 when they fit in 64 unsigned bits, and to MaxInt64 when they do not |
| Handler.ValidateTotalCost | internal/handler/subscription.go:173-207 | a malformed user_id is rejected first; then a month outside 1..12; a request passes exactly when the user_id is absent or well-formed, both months are in 1..12 and the start ordinal is at most the end ordinal; the bounds passed on are the parsed integers; an empty user_id or service_name becomes an absent filter and a non-empty one an exact filter |
| Handler.GetTotalCost | internal/handler/subscription.go:173-216 | rejection gives 400 with the check's message; a store failure or a year of 0 gives 500 "internal error"; otherwise 200 with the reference total over the snapshot under `total_cost_rub` |
| Handler.RejectionIgnoresStore | internal/handler/subscription.go:194-202 | a rejected request gets the same response whatever the store holds or whether it is reachable |
| Handler.UserIdCheckedFirst | internal/handler/subscription.go:174-182 | a malformed user_id gives "invalid user_id", whatever the months and years |
| Handler.MonthCheckPrecedesOrderCheck | internal/handler/subscription.go:194-202 | a request with a bad month and a reversed window reports "month must be 1-12" |
| Handler.ReversedWindowRejected | internal/handler/subscription.go:199-202 | valid months in a lexicographically reversed window give 400 "invalid period" |
| Handler.SameMonthAccepted | internal/handler/subscription.go:199 | a window whose start and end are the same month passes, and it holds one month |
| Handler.AcceptedWindowIsNonEmpty | internal/handler/subscription.go:199-209 | a request that passes validation, with years other than 0, has a window of at least one month |
| Handler.MissingMonthRejected | internal/handler/subscription.go:189-197 | a missing start or end month parses to 0 and is rejected by the range check |
| Handler.MissingStartYearIsYearZero | internal/handler/subscription.go:189-213 | a missing start year becomes year 0 and is not rejected by the handler; with a positive end year it reaches the store and gets 500 "internal error" |
| Handler.MissingEndYearRejected | internal/handler/subscription.go:189-202 | a missing end year after a positive start year gives 400 "invalid period" |
| Handler.WellFormedQueryAnswered | internal/handler/subscription.go:204-216 | a query holding the decimal forms of valid bounds (years other than 0) reaches the store with exactly those bounds and filters, and gets 200 with the query's total unchanged |

## Left out

- The CRUD operations (`Create`, `GetByID`, `GetAll`, `Update`, `Delete`, `scanRow`) and the other handler methods. Each is a single database round-trip or gin JSON binding, with no logic of their own.
- The service layer (internal/service/subscription.go). It is a one-line pass-through, so the handler model calls the repository directly.
- Server start-up, configuration and connection setup (cmd/server/main.go, internal/config/config.go, internal/db/pg.go).
- The error log written with logrus when the store fails (internal/handler/subscription.go:211). It is output only and does not change the response.
- `uuid.Parse` is a foreign library call. It is a parameter of the handler model (`string -> Option<Uuid>`), and UUIDs are opaque 128-bit values compared by equality.
- URL decoding, and the choice among repeated query parameters, belong to gin's `c.Query`. A query parameter is modelled as the string it returns, `""` when absent.
- Database failures other than `make_date`'s rejection of year 0 or of a month outside 1..12 are not distinguished. A lost connection, for example, is the single abstract outcome `Unavailable`.
- Repository.GetTotalCost: does not fail for years outside PostgreSQL's date and timestamp range (4713 BC to 294276 AD), nor for years that do not fit the 32-bit `make_date` parameter. Both raise errors in PostgreSQL, but the model computes a total.
- The store is modelled as one consistent snapshot. Concurrent writes during the query are not modelled.
- Time of day, time zones and days per month are not modelled. A date is (year, month, day), and only its year and month are used.
- Overflow of the SQL `SUM` and of Go's `int` on the scanned total is not modelled. Totals are unbounded integers.
