/** Handler.GetTotalCost (internal/handler/subscription.go): turns the
    query string of GET /subscriptions/total-cost into optional filters and
    integer bounds, rejects malformed requests before the store is touched,
    and maps the repository's outcome to a response. */
module Handler {
  import opened Wrappers
  import opened SubscriptionModel
  import opened Repository

  // ---------------------------------------------------------------------
  // strconv.Atoi on a 64-bit platform, with its error dropped
  // ---------------------------------------------------------------------

  const MaxInt64: int := 0x7fff_ffff_ffff_ffff
  const MinInt64: int := -0x8000_0000_0000_0000
  const MaxUint64: int := 0xffff_ffff_ffff_ffff

  predicate IsDigit(c: char) { '0' <= c <= '9' }

  predicate AllDigits(s: string) { forall i :: 0 <= i < |s| ==> IsDigit(s[i]) }

  function DigitValue(c: char): nat
    requires IsDigit(c)
  {
    c as int - '0' as int
  }

  /** How the unsigned scan of a decimal string ends. */
  datatype Scan = Parsed(n: nat) | SyntaxError | RangeError

  /** The part of s after an optional leading sign. */
  function Unsigned(s: string): string
  {
    if |s| > 0 && (s[0] == '+' || s[0] == '-') then s[1..] else s
  }

  /** An optional sign followed by one or more decimal digits. */
  predicate IsDecimal(s: string)
  {
    Unsigned(s) != [] && AllDigits(Unsigned(s))
  }

  /** The value of a digit string read left to right. */
  function Horner(s: string, acc: nat): nat
    requires AllDigits(s)
    decreases |s|
  {
    if s == [] then acc else Horner(s[1..], acc * 10 + DigitValue(s[0]))
  }

  /** The longest run of digits at the start of s. */
  function LeadingDigits(s: string): (d: string)
    ensures AllDigits(d) && d <= s
    ensures AllDigits(s) ==> d == s
  {
    if s == [] || !IsDigit(s[0]) then [] else [s[0]] + LeadingDigits(s[1..])
  }

  /** The digits before the first non-digit already exceed 2^64 - 1. */
  predicate PrefixOverflows(s: string)
  {
    Horner(LeadingDigits(Unsigned(s)), 0) > MaxUint64
  }

  /** The signed value of a decimal string. */
  function DecimalValue(s: string): int
    requires IsDecimal(s)
  {
    if s[0] == '-' then -(Horner(Unsigned(s), 0) as int) else Horner(Unsigned(s), 0)
  }

  function Clamp(v: int): (n: int)
    ensures MinInt64 <= n <= MaxInt64
    ensures MinInt64 <= v <= MaxInt64 ==> n == v
  {
    if v > MaxInt64 then MaxInt64 else if v < MinInt64 then MinInt64 else v
  }

  lemma {:induction false} HornerAtLeast(s: string, acc: nat)
    requires AllDigits(s)
    ensures Horner(s, acc) >= acc
    decreases |s|
  {
    if s != [] {
      HornerAtLeast(s[1..], acc * 10 + DigitValue(s[0]));
    }
  }

  /** The digit loop of an unsigned base-10 parse: a non-digit is a syntax
      error; a value that would pass 2^64 - 1 stops the scan at once with a
      range error, before any later character is looked at. So the scan
      overflows exactly when its leading digits do, and otherwise parses
      the whole string when it is all digits. */
  function ScanDigits(s: string, acc: nat): (r: Scan)
    ensures acc <= MaxUint64 ==>
              r == if Horner(LeadingDigits(s), acc) > MaxUint64 then RangeError
                   else if AllDigits(s) then Parsed(Horner(s, acc))
                   else SyntaxError
    decreases |s|
  {
    if s == [] then Parsed(acc)
    else if !IsDigit(s[0]) then SyntaxError
    else
      var next := acc * 10 + DigitValue(s[0]);
      assert LeadingDigits(s)[1..] == LeadingDigits(s[1..]);
      HornerAtLeast(LeadingDigits(s[1..]), next);
      if acc >= MaxUint64 / 10 + 1 then RangeError
      else if next > MaxUint64 then RangeError
      else ScanDigits(s[1..], next)
  }

  /** `n, _ := strconv.Atoi(s)`: an optional sign and decimal digits give
      their value, saturated to the nearest int64 bound when out of range.
      Any other string gives 0 (the syntax error is dropped), unless its
      leading digits alone already overflow: then the range error wins
      and the value saturates. (Atoi's fast path for strings shorter than
      19 bytes cannot overflow and gives the same results as this general
      path.) */
  function AtoiIgnoringError(s: string): (n: int)
    ensures MinInt64 <= n <= MaxInt64
    ensures IsDecimal(s) ==> n == Clamp(DecimalValue(s))
    ensures !IsDecimal(s) && !PrefixOverflows(s) ==> n == 0
    ensures !IsDecimal(s) && PrefixOverflows(s) ==> n == if s[0] == '-' then MinInt64 else MaxInt64
    ensures (forall i :: 0 <= i < |s| ==> !IsDigit(s[i])) ==> n == 0
  {
    if s == [] then 0
    else
      var neg := s[0] == '-';
      var digits := Unsigned(s);
      match (if digits == [] then SyntaxError else ScanDigits(digits, 0))
      case SyntaxError => 0
      case RangeError => if neg then MinInt64 else MaxInt64
      case Parsed(u) =>
        if !neg && u > MaxInt64 then MaxInt64
        else if neg && u > -MinInt64 then MinInt64
        else if neg then -(u as int) else u as int
  }

  /** The decimal digits of a natural number, most significant first. */
  function NatDigits(n: nat): (s: string)
    ensures |s| > 0 && AllDigits(s)
    decreases n
  {
    if n < 10 then ['0' + n as char] else NatDigits(n / 10) + ['0' + (n % 10) as char]
  }

  /** The decimal form of an integer, as a client writes it in a query. */
  function Itoa(n: int): string
  {
    if n < 0 then "-" + NatDigits(-n) else NatDigits(n)
  }

  lemma {:induction false} HornerSnoc(s: string, c: char, acc: nat)
    requires AllDigits(s) && IsDigit(c)
    ensures AllDigits(s + [c])
    ensures Horner(s + [c], acc) == Horner(s, acc) * 10 + DigitValue(c)
    decreases |s|
  {
    assert AllDigits(s + [c]);
    if s == [] {
      assert (s + [c])[1..] == [];
    } else {
      assert (s + [c])[1..] == s[1..] + [c];
      HornerSnoc(s[1..], c, acc * 10 + DigitValue(s[0]));
    }
  }

  lemma {:induction false} HornerOfNatDigits(n: nat)
    ensures Horner(NatDigits(n), 0) == n
    decreases n
  {
    if n >= 10 {
      HornerOfNatDigits(n / 10);
      HornerSnoc(NatDigits(n / 10), '0' + (n % 10) as char, 0);
    }
  }

  /** Itoa writes a decimal string whose value is n. */
  lemma ItoaIsDecimal(n: int)
    ensures IsDecimal(Itoa(n)) && DecimalValue(Itoa(n)) == n
  {
    var m: nat := if n < 0 then -n else n;
    HornerOfNatDigits(m);
    if n < 0 {
      assert ("-" + NatDigits(m))[1..] == NatDigits(m);
    } else {
      assert NatDigits(m)[0] != '+' && NatDigits(m)[0] != '-';
    }
  }

  /** The decimal form of every int64 parses back to it. */
  lemma AtoiOfItoa(n: int)
    requires MinInt64 <= n <= MaxInt64
    ensures AtoiIgnoringError(Itoa(n)) == n
  {
    ItoaIsDecimal(n);
  }

  /** A decimal value beyond int64 saturates instead of failing. */
  lemma AtoiSaturates(n: int)
    requires n > MaxInt64 || n < MinInt64
    ensures AtoiIgnoringError(Itoa(n)) == if n < 0 then MinInt64 else MaxInt64
  {
    ItoaIsDecimal(n);
  }

  lemma {:induction false} LeadingDigitsBeforeJunk(d: string, c: char)
    requires AllDigits(d) && !IsDigit(c)
    ensures LeadingDigits(d + [c]) == d
    decreases |d|
  {
    if d == [] {
    } else {
      assert (d + [c])[1..] == d[1..] + [c];
      LeadingDigitsBeforeJunk(d[1..], c);
    }
  }

  /** Digits followed by a stray character ("12x", "5 ") parse to 0 when
      the digits fit in 64 unsigned bits, and saturate when they do not. */
  lemma TrailingJunk(m: nat, c: char)
    requires !IsDigit(c) && c != '+' && c != '-'
    ensures !IsDecimal(NatDigits(m) + [c])
    ensures AtoiIgnoringError(NatDigits(m) + [c]) == if m > MaxUint64 then MaxInt64 else 0
  {
    var s := NatDigits(m) + [c];
    assert s[0] == NatDigits(m)[0];
    assert Unsigned(s) == s;
    assert s[|s| - 1] == c;
    LeadingDigitsBeforeJunk(NatDigits(m), c);
    HornerOfNatDigits(m);
  }

  // ---------------------------------------------------------------------
  // Validation
  // ---------------------------------------------------------------------

  /** The query parameters as c.Query returns them: "" when absent. */
  datatype TotalCostQuery = TotalCostQuery(
    userId: string,
    serviceName: string,
    startMonth: string,
    startYear: string,
    endMonth: string,
    endYear: string)

  datatype Rejection = InvalidUserId | MonthOutOfRange | InvalidPeriod

  /** The validated arguments handed to the service. */
  datatype TotalCostRequest = TotalCostRequest(
    filters: Filters,
    startMonth: int,
    startYear: int,
    endMonth: int,
    endYear: int)

  /** An absent user_id, or one that uuid.Parse (a parameter here) accepts. */
  predicate UserIdAccepted(q: TotalCostQuery, parseUuid: string -> Option<Uuid>)
  {
    q.userId == "" || parseUuid(q.userId).Some?
  }

  predicate MonthsInRange(q: TotalCostQuery)
  {
    && 1 <= AtoiIgnoringError(q.startMonth) <= 12
    && 1 <= AtoiIgnoringError(q.endMonth) <= 12
  }

  /** The window's first month is not after its last month, as ordinals. */
  predicate WindowOrdered(q: TotalCostQuery)
  {
    MonthOrdinal(AtoiIgnoringError(q.startYear), AtoiIgnoringError(q.startMonth))
      <= MonthOrdinal(AtoiIgnoringError(q.endYear), AtoiIgnoringError(q.endMonth))
  }

  /** The checks of the handler, in its order: user_id, then the month
      range, then the order of the window. */
  function ValidateTotalCost(q: TotalCostQuery, parseUuid: string -> Option<Uuid>): (r: Result<TotalCostRequest, Rejection>)
    ensures r == Failure(InvalidUserId) <==> !UserIdAccepted(q, parseUuid)
    ensures r == Failure(MonthOutOfRange) <==> UserIdAccepted(q, parseUuid) && !MonthsInRange(q)
    ensures r.Success? <==> UserIdAccepted(q, parseUuid) && MonthsInRange(q) && WindowOrdered(q)
    ensures r.Success? ==>
      && r.value.startMonth == AtoiIgnoringError(q.startMonth)
      && r.value.startYear == AtoiIgnoringError(q.startYear)
      && r.value.endMonth == AtoiIgnoringError(q.endMonth)
      && r.value.endYear == AtoiIgnoringError(q.endYear)
    ensures r.Success? ==>
      && (q.userId == "" ==> r.value.filters.userId == None)
      && (q.userId != "" ==> r.value.filters.userId == parseUuid(q.userId))
      && (q.serviceName == "" ==> r.value.filters.serviceName == None)
      && (q.serviceName != "" ==> r.value.filters.serviceName == Some(q.serviceName))
  {
    if q.userId != "" && parseUuid(q.userId).None? then Failure(InvalidUserId)
    else
      var userId := if q.userId != "" then parseUuid(q.userId) else None;
      var startMonth := AtoiIgnoringError(q.startMonth);
      var startYear := AtoiIgnoringError(q.startYear);
      var endMonth := AtoiIgnoringError(q.endMonth);
      var endYear := AtoiIgnoringError(q.endYear);
      if startMonth < 1 || startMonth > 12 || endMonth < 1 || endMonth > 12 then Failure(MonthOutOfRange)
      else
        OrdinalOrderIsLexicographic(startYear, startMonth, endYear, endMonth);
        if startYear > endYear || (startYear == endYear && startMonth > endMonth) then Failure(InvalidPeriod)
        else
          var serviceName := if q.serviceName != "" then Some(q.serviceName) else None;
          Success(TotalCostRequest(Filters(userId, serviceName), startMonth, startYear, endMonth, endYear))
  }

  // ---------------------------------------------------------------------
  // The response
  // ---------------------------------------------------------------------

  const StatusOK := 200
  const StatusBadRequest := 400
  const StatusInternalServerError := 500

  /** The JSON body: {"error": ...} or {"total_cost_rub": ...}. */
  datatype Body = ErrorBody(error: string) | TotalCostBody(totalCostRub: int)

  datatype Response = Response(status: int, body: Body)

  function RejectionMessage(e: Rejection): string
  {
    match e
    case InvalidUserId => "invalid user_id"
    case MonthOutOfRange => "month must be 1-12"
    case InvalidPeriod => "invalid period"
  }

  /** The whole endpoint. The service layer passes the call straight to the
      repository, so the store is consulted only after validation passes.
      A validated request can still fail there: a year of 0 (a missing
      year parses to 0) is rejected by make_date. */
  function GetTotalCost(q: TotalCostQuery, parseUuid: string -> Option<Uuid>, store: Store): (resp: Response)
    ensures resp.status == StatusBadRequest <==> ValidateTotalCost(q, parseUuid).Failure?
    ensures resp.status == StatusBadRequest ==>
              resp.body == ErrorBody(RejectionMessage(ValidateTotalCost(q, parseUuid).error))
    ensures resp.status == StatusInternalServerError <==>
              && ValidateTotalCost(q, parseUuid).Success?
              && var req := ValidateTotalCost(q, parseUuid).value;
                 store.Unavailable? || req.startYear == 0 || req.endYear == 0
    ensures resp.status == StatusInternalServerError ==> resp.body == ErrorBody("internal error")
    ensures resp.status == StatusOK <==>
              && ValidateTotalCost(q, parseUuid).Success?
              && var req := ValidateTotalCost(q, parseUuid).value;
                 store.Snapshot? && req.startYear != 0 && req.endYear != 0
    ensures resp.status == StatusOK ==>
              var req := ValidateTotalCost(q, parseUuid).value;
              resp.body == TotalCostBody(BilledTotal(store.rows, req.filters,
                             QueryMonth(req.startYear, req.startMonth), QueryMonth(req.endYear, req.endMonth)))
  {
    match ValidateTotalCost(q, parseUuid)
    case Failure(e) => Response(StatusBadRequest, ErrorBody(RejectionMessage(e)))
    case Success(req) =>
      match Repository.GetTotalCost(store, req.filters, req.startMonth, req.startYear, req.endMonth, req.endYear)
      case Failure(_) => Response(StatusInternalServerError, ErrorBody("internal error"))
      case Success(total) => Response(StatusOK, TotalCostBody(total))
  }

  // ---------------------------------------------------------------------
  // Properties of the endpoint
  // ---------------------------------------------------------------------

  /** A rejected request gets the same answer whatever the store holds or
      whether it is reachable: the store is not consulted. */
  lemma RejectionIgnoresStore(q: TotalCostQuery, parseUuid: string -> Option<Uuid>, s1: Store, s2: Store)
    requires ValidateTotalCost(q, parseUuid).Failure?
    ensures GetTotalCost(q, parseUuid, s1) == GetTotalCost(q, parseUuid, s2)
  {
  }

  /** A malformed user_id is reported before anything about the months or years. */
  lemma UserIdCheckedFirst(q: TotalCostQuery, parseUuid: string -> Option<Uuid>, store: Store)
    requires q.userId != "" && parseUuid(q.userId).None?
    ensures GetTotalCost(q, parseUuid, store) == Response(StatusBadRequest, ErrorBody("invalid user_id"))
  {
  }

  /** The month range is checked before the window order: a request that
      breaks both reports the month error. */
  lemma MonthCheckPrecedesOrderCheck(q: TotalCostQuery, parseUuid: string -> Option<Uuid>, store: Store)
    requires UserIdAccepted(q, parseUuid)
    requires !MonthsInRange(q) && !WindowOrdered(q)
    ensures GetTotalCost(q, parseUuid, store) == Response(StatusBadRequest, ErrorBody("month must be 1-12"))
  {
  }

  /** Valid months in a window whose start is lexicographically after its
      end are rejected as an invalid period. */
  lemma ReversedWindowRejected(q: TotalCostQuery, parseUuid: string -> Option<Uuid>, store: Store)
    requires UserIdAccepted(q, parseUuid) && MonthsInRange(q)
    requires var sy, sm := AtoiIgnoringError(q.startYear), AtoiIgnoringError(q.startMonth);
             var ey, em := AtoiIgnoringError(q.endYear), AtoiIgnoringError(q.endMonth);
             sy > ey || (sy == ey && sm > em)
    ensures GetTotalCost(q, parseUuid, store) == Response(StatusBadRequest, ErrorBody("invalid period"))
  {
    var sy, sm := AtoiIgnoringError(q.startYear), AtoiIgnoringError(q.startMonth);
    var ey, em := AtoiIgnoringError(q.endYear), AtoiIgnoringError(q.endMonth);
    OrdinalOrderIsLexicographic(sy, sm, ey, em);
    assert !WindowOrdered(q);
    var r := ValidateTotalCost(q, parseUuid);
    assert r.Failure? && r.error == InvalidPeriod;
    assert RejectionMessage(r.error) == "invalid period";
  }

  /** A one-month window passes validation. */
  lemma SameMonthAccepted(q: TotalCostQuery, parseUuid: string -> Option<Uuid>)
    requires UserIdAccepted(q, parseUuid) && MonthsInRange(q)
    requires AtoiIgnoringError(q.startYear) == AtoiIgnoringError(q.endYear)
    requires AtoiIgnoringError(q.startMonth) == AtoiIgnoringError(q.endMonth)
    ensures ValidateTotalCost(q, parseUuid).Success?
    ensures var req := ValidateTotalCost(q, parseUuid).value;
            |Window(req.startMonth, req.startYear, req.endMonth, req.endYear)| == 1
  {
  }

  /** A missing month parses to 0 and is rejected by the range check. */
  lemma MissingMonthRejected(q: TotalCostQuery, parseUuid: string -> Option<Uuid>, store: Store)
    requires UserIdAccepted(q, parseUuid)
    requires q.startMonth == "" || q.endMonth == ""
    ensures GetTotalCost(q, parseUuid, store) == Response(StatusBadRequest, ErrorBody("month must be 1-12"))
  {
  }

  /** A missing start year parses to 0 and is not rejected by itself: with
      valid months and a positive end year the request passes validation
      and reaches the store, where make_date rejects year 0, so the answer
      is an internal error whatever the store holds. */
  lemma MissingStartYearIsYearZero(q: TotalCostQuery, parseUuid: string -> Option<Uuid>, store: Store)
    requires UserIdAccepted(q, parseUuid) && MonthsInRange(q)
    requires q.startYear == "" && AtoiIgnoringError(q.endYear) > 0
    ensures ValidateTotalCost(q, parseUuid).Success?
    ensures ValidateTotalCost(q, parseUuid).value.startYear == 0
    ensures GetTotalCost(q, parseUuid, store) == Response(StatusInternalServerError, ErrorBody("internal error"))
  {
  }

  /** A missing end year with a positive start year is a reversed window. */
  lemma MissingEndYearRejected(q: TotalCostQuery, parseUuid: string -> Option<Uuid>, store: Store)
    requires UserIdAccepted(q, parseUuid) && MonthsInRange(q)
    requires q.endYear == "" && AtoiIgnoringError(q.startYear) > 0
    ensures GetTotalCost(q, parseUuid, store) == Response(StatusBadRequest, ErrorBody("invalid period"))
  {
    ReversedWindowRejected(q, parseUuid, store);
  }

  /** A request that passes validation with years make_date accepts has a
      window of at least one month. */
  lemma AcceptedWindowIsNonEmpty(q: TotalCostQuery, parseUuid: string -> Option<Uuid>)
    requires ValidateTotalCost(q, parseUuid).Success?
    requires ValidateTotalCost(q, parseUuid).value.startYear != 0
    requires ValidateTotalCost(q, parseUuid).value.endYear != 0
    ensures var req := ValidateTotalCost(q, parseUuid).value;
            |Window(req.startMonth, req.startYear, req.endMonth, req.endYear)| >= 1
  {
    var req := ValidateTotalCost(q, parseUuid).value;
    OrdinalOrderIsLexicographic(req.startYear, req.startMonth, req.endYear, req.endMonth);
    QueryMonthOrderIsLexicographic(req.startYear, req.startMonth, req.endYear, req.endMonth);
  }

  /** A query written with the decimal forms of valid bounds (years other
      than 0) reaches the store with exactly those bounds, and the total the
      store computes is returned unchanged. */
  lemma WellFormedQueryAnswered(userId: string, serviceName: string, parseUuid: string -> Option<Uuid>,
                                rows: seq<Subscription>,
                                startMonth: int, startYear: int, endMonth: int, endYear: int)
    requires userId == "" || parseUuid(userId).Some?
    requires 1 <= startMonth <= 12 && 1 <= endMonth <= 12
    requires MinInt64 <= startYear <= MaxInt64 && MinInt64 <= endYear <= MaxInt64
    requires startYear != 0 && endYear != 0
    requires startYear < endYear || (startYear == endYear && startMonth <= endMonth)
    ensures var q := TotalCostQuery(userId, serviceName, Itoa(startMonth), Itoa(startYear), Itoa(endMonth), Itoa(endYear));
            var f := Filters(if userId == "" then None else parseUuid(userId),
                             if serviceName == "" then None else Some(serviceName));
            GetTotalCost(q, parseUuid, Snapshot(rows))
              == Response(StatusOK, TotalCostBody(TotalCost(rows, f, startMonth, startYear, endMonth, endYear)))
  {
    AtoiOfItoa(startMonth);
    AtoiOfItoa(startYear);
    AtoiOfItoa(endMonth);
    AtoiOfItoa(endYear);
    var q := TotalCostQuery(userId, serviceName, Itoa(startMonth), Itoa(startYear), Itoa(endMonth), Itoa(endYear));
    var f := Filters(if userId == "" then None else parseUuid(userId),
                     if serviceName == "" then None else Some(serviceName));
    OrdinalOrderIsLexicographic(startYear, startMonth, endYear, endMonth);
    assert ValidateTotalCost(q, parseUuid) == Success(TotalCostRequest(f, startMonth, startYear, endMonth, endYear));
    TotalCostIsBilledTotal(rows, f, startMonth, startYear, endMonth, endYear);
  }
}
