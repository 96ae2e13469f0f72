/**
 * The filter and the aggregations the dashboard computes from the session
 * table: the sidebar filter, the four key metrics, the therapist summary,
 * the status distribution, revenue per day, week or month, the session
 * type by status cross-tab, and revenue by therapist.
 *
 * Each is a pure function of a sequence of rows. Money is in cents and the
 * two rates are exact fractions, so nothing here rounds.
 */
module Dashboard {
  import opened Dates
  import opened Text
  import opened Sessions
  import opened Grouping

  // Columns, as functions a group-by can use as key or value.
  function TherapistName(s: Session): string { s.therapistName }
  function SessionTypeOf(s: Session): string { s.sessionType }
  function StatusOf(s: Session): string { s.status }
  function AmountOf(s: Session): int { s.amountCents }
  function One(s: Session): int { 1 }

  lemma StringOrder()
    ensures StrictTotalOrder(StringLess)
  {
    forall a ensures !StringLess(a, a) {
      StringLessIrreflexive(a);
    }
    forall a, b, c | StringLess(a, b) && StringLess(b, c) ensures StringLess(a, c) {
      StringLessTransitive(a, b, c);
    }
    forall a, b | a != b ensures StringLess(a, b) || StringLess(b, a) {
      StringLessTotal(a, b);
    }
  }

  lemma DateOrder()
    ensures StrictTotalOrder(DateLess)
  {
    forall a, b, c ensures !DateLess(a, a)
      && (DateLess(a, b) && DateLess(b, c) ==> DateLess(a, c))
      && (a != b ==> DateLess(a, b) || DateLess(b, a))
    {
      DateLessIsStrictTotal(a, b, c);
    }
  }

  // ---------------------------------------------------------------------
  // The sidebar filter.

  /**
   * What the sidebar selects. `dateRange` is what the date picker returns:
   * a start and an end once both are picked, fewer while picking.
   */
  datatype Selection = Selection(
    dateRange: seq<Date>,
    therapists: set<string>,
    sessionTypes: set<string>,
    statuses: set<string>)

  predicate InSelectedSets(sel: Selection, s: Session) {
    s.therapistName in sel.therapists && s.sessionType in sel.sessionTypes && s.status in sel.statuses
  }

  /** The row test: an inclusive date range when two dates are picked, and the three set tests. */
  predicate Selected(sel: Selection, s: Session) {
    if |sel.dateRange| == 2 then
      DateLessEq(sel.dateRange[0], s.sessionDate) && DateLessEq(s.sessionDate, sel.dateRange[1])
      && InSelectedSets(sel, s)
    else
      InSelectedSets(sel, s)
  }

  /** `a` is `b` with some elements left out, the rest in their order. */
  predicate IsSubsequence<T(==)>(a: seq<T>, b: seq<T>)
    decreases |b|
  {
    if a == [] then true
    else if b == [] then false
    else (a[0] == b[0] && IsSubsequence(a[1..], b[1..])) || IsSubsequence(a, b[1..])
  }

  /** The boolean-mask filter: the selected rows, each as often as in the input, in input order. */
  function ApplyFilters(rows: seq<Session>, sel: Selection): (out: seq<Session>)
    ensures IsSubsequence(out, rows)
    ensures forall s :: multiset(out)[s] == if Selected(sel, s) then multiset(rows)[s] else 0
  {
    if rows == [] then []
    else
      assert rows == [rows[0]] + rows[1..];
      var rest := ApplyFilters(rows[1..], sel);
      if Selected(sel, rows[0]) then [rows[0]] + rest else rest
  }

  /** A row survives iff it is in the input and passes the dates (when two are picked) and the sets. */
  lemma FilterSurvivors(rows: seq<Session>, sel: Selection, s: Session)
    ensures s in ApplyFilters(rows, sel) <==>
      s in rows
      && (|sel.dateRange| == 2 ==>
            DateLessEq(sel.dateRange[0], s.sessionDate) && DateLessEq(s.sessionDate, sel.dateRange[1]))
      && s.therapistName in sel.therapists
      && s.sessionType in sel.sessionTypes
      && s.status in sel.statuses
  {
    var out := ApplyFilters(rows, sel);
    assert s in out <==> multiset(out)[s] > 0;
    assert s in rows <==> multiset(rows)[s] > 0;
  }

  // ---------------------------------------------------------------------
  // Key metrics.

  function TotalSessions(rows: seq<Session>): nat {
    |rows|
  }

  /** The number of rows with the given status. */
  function CountStatus(rows: seq<Session>, status: string): int {
    SumWhere(rows, StatusOf, status, One)
  }

  lemma {:induction false} CountBounds<K>(rows: seq<Session>, key: Session -> K, k: K)
    ensures 0 <= SumWhere(rows, key, k, One) <= |rows|
  {
    if rows != [] {
      CountBounds(rows[1..], key, k);
    }
  }

  lemma {:induction false} CountPositive<K>(rows: seq<Session>, key: Session -> K, k: K)
    requires k in KeysOf(rows, key)
    ensures SumWhere(rows, key, k, One) >= 1
  {
    var s :| s in rows && key(s) == k;
    if key(rows[0]) != k {
      assert s in rows[1..];
      CountPositive(rows[1..], key, k);
    } else {
      CountBounds(rows[1..], key, k);
    }
  }

  lemma {:induction false} TwoCountsBound(rows: seq<Session>, a: string, b: string)
    requires a != b
    ensures CountStatus(rows, a) + CountStatus(rows, b) <= |rows|
  {
    if rows != [] {
      TwoCountsBound(rows[1..], a, b);
    }
  }

  lemma {:induction false} SumOfOnes(rows: seq<Session>)
    ensures Sum(rows, One) == |rows|
  {
    if rows != [] {
      SumOfOnes(rows[1..]);
    }
  }

  function CompletedSessions(rows: seq<Session>): int {
    CountStatus(rows, Completed)
  }

  function NoShows(rows: seq<Session>): int {
    CountStatus(rows, NoShow)
  }

  /** A percentage held exactly as the fraction num/den. */
  datatype Percent = Percent(num: int, den: int)

  /** `part / total * 100 if total > 0 else 0`. */
  function RatePercent(part: int, total: int): Percent {
    if total > 0 then Percent(100 * part, total) else Percent(0, 1)
  }

  /** Completed rows as a percentage of all rows; 0 for no rows. */
  function CompletionRate(rows: seq<Session>): (r: Percent)
    ensures r.den > 0 && 0 <= r.num <= 100 * r.den
    ensures |rows| == 0 ==> r.num == 0
    ensures |rows| > 0 ==> r.num * |rows| == 100 * CompletedSessions(rows) * r.den
  {
    CountBounds(rows, StatusOf, Completed);
    RatePercent(CompletedSessions(rows), TotalSessions(rows))
  }

  /** No-show rows as a percentage of all rows; 0 for no rows. */
  function NoShowRate(rows: seq<Session>): (r: Percent)
    ensures r.den > 0 && 0 <= r.num <= 100 * r.den
    ensures |rows| == 0 ==> r.num == 0
    ensures |rows| > 0 ==> r.num * |rows| == 100 * NoShows(rows) * r.den
  {
    CountBounds(rows, StatusOf, NoShow);
    RatePercent(NoShows(rows), TotalSessions(rows))
  }

  /** The two rates share a denominator and together never pass 100%. */
  lemma RatesWithinWhole(rows: seq<Session>)
    ensures CompletionRate(rows).den == NoShowRate(rows).den
    ensures CompletionRate(rows).num + NoShowRate(rows).num <= 100 * CompletionRate(rows).den
  {
    TwoCountsBound(rows, Completed, NoShow);
  }

  /** `df[df['status'] == 'Completed']`: the Completed rows, each as often as in the input, in input order. */
  function CompletedRows(rows: seq<Session>): (out: seq<Session>)
    ensures IsSubsequence(out, rows)
    ensures forall s :: multiset(out)[s] == if s.status == Completed then multiset(rows)[s] else 0
    ensures forall s :: s in out <==> s in rows && s.status == Completed
  {
    if rows == [] then []
    else
      assert rows == [rows[0]] + rows[1..];
      var rest := CompletedRows(rows[1..]);
      if rows[0].status == Completed then [rows[0]] + rest else rest
  }

  /** The rows of every other status, each as often as in the input, in input order. */
  function OtherRows(rows: seq<Session>): (out: seq<Session>)
    ensures IsSubsequence(out, rows)
    ensures forall s :: multiset(out)[s] == if s.status != Completed then multiset(rows)[s] else 0
    ensures forall s :: s in out <==> s in rows && s.status != Completed
  {
    if rows == [] then []
    else
      assert rows == [rows[0]] + rows[1..];
      var rest := OtherRows(rows[1..]);
      if rows[0].status != Completed then [rows[0]] + rest else rest
  }

  /** Revenue counts Completed rows only; the PDF report uses the same sum. */
  function TotalRevenue(rows: seq<Session>): int {
    Sum(CompletedRows(rows), AmountOf)
  }

  /** Every row's amount is in exactly one of the two sums. */
  lemma {:induction false} RevenueSplit(rows: seq<Session>)
    ensures Sum(rows, AmountOf) == TotalRevenue(rows) + Sum(OtherRows(rows), AmountOf)
  {
    if rows != [] {
      RevenueSplit(rows[1..]);
    }
  }

  /** Revenue of the Completed rows is the per-status sum for "Completed". */
  lemma {:induction false} TotalRevenueIsCompletedSum(rows: seq<Session>)
    ensures TotalRevenue(rows) == SumWhere(rows, StatusOf, Completed, AmountOf)
  {
    if rows != [] {
      TotalRevenueIsCompletedSum(rows[1..]);
    }
  }

  // ---------------------------------------------------------------------
  // Sessions by therapist.

  datatype TherapistRow = TherapistRow(therapistName: string, totalSessions: int, totalRevenue: int)

  function SummaryRows(names: seq<string>, rows: seq<Session>): (t: seq<TherapistRow>)
    ensures |t| == |names|
    ensures forall i :: 0 <= i < |t| ==>
      (t[i].therapistName == names[i]
       && t[i].totalSessions == SumWhere(rows, TherapistName, names[i], One)
       && t[i].totalRevenue == SumWhere(rows, TherapistName, names[i], AmountOf))
  {
    if names == [] then []
    else
      [TherapistRow(names[0], SumWhere(rows, TherapistName, names[0], One),
                    SumWhere(rows, TherapistName, names[0], AmountOf))]
      + SummaryRows(names[1..], rows)
  }

  /** `groupby('therapist_name').agg(count of session_id, sum of amount)`. */
  function TherapistSummary(rows: seq<Session>): seq<TherapistRow> {
    SummaryRows(SortedKeys(rows, TherapistName, StringLess), rows)
  }

  function SessionsColumn(t: seq<TherapistRow>): int {
    if t == [] then 0 else t[0].totalSessions + SessionsColumn(t[1..])
  }

  function RevenueColumn(t: seq<TherapistRow>): int {
    if t == [] then 0 else t[0].totalRevenue + RevenueColumn(t[1..])
  }

  lemma {:induction false} SummaryColumns(names: seq<string>, rows: seq<Session>)
    ensures SessionsColumn(SummaryRows(names, rows)) == SumOverKeys(names, rows, TherapistName, One)
    ensures RevenueColumn(SummaryRows(names, rows)) == SumOverKeys(names, rows, TherapistName, AmountOf)
  {
    if names != [] {
      SummaryColumns(names[1..], rows);
    }
  }

  /** The therapist-name column of the summary. */
  function Names(t: seq<TherapistRow>): (names: seq<string>)
    ensures |names| == |t| && forall i :: 0 <= i < |t| ==> names[i] == t[i].therapistName
  {
    if t == [] then [] else [t[0].therapistName] + Names(t[1..])
  }

  /** Every row's key is among the sorted keys. */
  lemma RowKeysListed<K(!new)>(rows: seq<Session>, key: Session -> K, lt: (K, K) -> bool)
    ensures forall s :: s in rows ==> key(s) in SortedKeys(rows, key, lt)
  {
    forall s | s in rows ensures key(s) in SortedKeys(rows, key, lt) {
      assert key(s) in KeysOf(rows, key);
    }
  }

  /** One summary row per therapist present, each name once, names ascending. */
  lemma TherapistSummaryNames(rows: seq<Session>)
    ensures var names := Names(TherapistSummary(rows));
      && StrictlySorted(names, StringLess)
      && NoDuplicates(names)
      && (forall name :: name in names <==> exists s :: s in rows && s.therapistName == name)
  {
    var keys := SortedKeys(rows, TherapistName, StringLess);
    var names := Names(TherapistSummary(rows));
    assert names == keys;
    StringOrder();
    SortedKeysSorted(rows, TherapistName, StringLess);
    RowKeysListed(rows, TherapistName, StringLess);
  }

  /**
   * The session counts add up to all rows and the revenue column to the
   * amounts of all rows, of every status: the Completed revenue plus what
   * the other rows carry.
   */
  lemma TherapistSummaryTotals(rows: seq<Session>)
    ensures var t := TherapistSummary(rows);
      && SessionsColumn(t) == |rows|
      && RevenueColumn(t) == Sum(rows, AmountOf)
      && RevenueColumn(t) == TotalRevenue(rows) + Sum(OtherRows(rows), AmountOf)
  {
    var names := SortedKeys(rows, TherapistName, StringLess);
    StringOrder();
    SortedKeysSorted(rows, TherapistName, StringLess);
    RowKeysListed(rows, TherapistName, StringLess);
    SummaryColumns(names, rows);
    PartitionSum(names, rows, TherapistName, One);
    PartitionSum(names, rows, TherapistName, AmountOf);
    SumOfOnes(rows);
    RevenueSplit(rows);
  }

  // ---------------------------------------------------------------------
  // Status distribution.

  /** `value_counts()` of the status column: largest count first. */
  function StatusCounts(rows: seq<Session>): seq<Bucket<string>> {
    GroupTotalsDesc(rows, StatusOf, One, StringLess)
  }

  /**
   * Exactly the statuses present, each once with its positive count,
   * largest first, the counts adding up to all rows.
   */
  lemma StatusCountsFacts(rows: seq<Session>)
    ensures var c := StatusCounts(rows);
      && NoDuplicates(Keys(c))
      && (forall st :: st in Keys(c) <==> exists s :: s in rows && s.status == st)
      && (forall b :: b in c ==> b.total >= 1 && b.total == CountStatus(rows, b.key))
      && NonIncreasing(c)
      && TotalOf(c) == |rows|
  {
    var c := StatusCounts(rows);
    StringOrder();
    GroupTotalsDescKeys(rows, StatusOf, One, StringLess);
    GroupTotalsDescTotals(rows, StatusOf, One, StringLess);
    SumOfOnes(rows);
    forall st ensures st in Keys(c) <==> exists s :: s in rows && s.status == st {
      if exists s :: s in rows && s.status == st {
        var s :| s in rows && s.status == st;
        assert StatusOf(s) in KeysOf(rows, StatusOf);
      }
    }
    forall b | b in c ensures b.total >= 1 {
      var i :| 0 <= i < |c| && c[i] == b;
      assert Keys(c)[i] == b.key;
      CountPositive(rows, StatusOf, b.key);
    }
  }

  // ---------------------------------------------------------------------
  // Revenue over time.

  datatype Period = Daily | Weekly | Monthly

  /**
   * The start of the period a date falls in: the day itself, the Monday of
   * its Monday-to-Sunday week, or the first of its month.
   */
  function PeriodStart(p: Period, d: Date): Date {
    if !ValidDate(d) then d
    else
      match p
      case Daily => d
      case Weekly => WeekStart(d)
      case Monthly => MonthStart(d)
  }

  /** Which week or month two real dates share is what their period starts say. */
  lemma PeriodStartFacts(p: Period, d: Date)
    requires ValidDate(d)
    ensures ValidDate(PeriodStart(p, d)) && DateLessEq(PeriodStart(p, d), d)
    ensures p == Daily ==> PeriodStart(p, d) == d
    ensures p == Weekly ==>
      (Weekday(PeriodStart(p, d)) == 0 && Ordinal(d) - 6 <= Ordinal(PeriodStart(p, d)) <= Ordinal(d))
    ensures p == Monthly ==> PeriodStart(p, d) == Date(d.year, d.month, 1)
  {
    if p == Weekly {
      OrdinalOrder(WeekStart(d), d);
    }
  }

  function PeriodKey(p: Period): Session -> Date {
    (s: Session) => PeriodStart(p, s.sessionDate)
  }

  /** `groupby(period)['amount'].sum()` over the Completed rows, periods ascending. */
  function RevenueOverTime(rows: seq<Session>, p: Period): seq<Bucket<Date>> {
    GroupTotals(CompletedRows(rows), PeriodKey(p), AmountOf, DateLess)
  }

  /**
   * One bucket per period holding a Completed row, in ascending order, each
   * holding that period's Completed revenue; the buckets add up to the total
   * revenue.
   */
  lemma RevenueOverTimeFacts(rows: seq<Session>, p: Period)
    ensures var r := RevenueOverTime(rows, p);
      && StrictlySorted(Keys(r), DateLess)
      && (forall k :: k in Keys(r) <==>
            exists s :: s in rows && s.status == Completed && PeriodStart(p, s.sessionDate) == k)
      && (forall i :: 0 <= i < |r| ==>
            r[i].total == SumWhere(CompletedRows(rows), PeriodKey(p), r[i].key, AmountOf))
      && TotalOf(r) == TotalRevenue(rows)
  {
    var done := CompletedRows(rows);
    var r := RevenueOverTime(rows, p);
    DateOrder();
    GroupTotalsFacts(done, PeriodKey(p), AmountOf, DateLess);
    forall k ensures k in Keys(r) <==>
      exists s :: s in rows && s.status == Completed && PeriodStart(p, s.sessionDate) == k
    {
      if exists s :: s in rows && s.status == Completed && PeriodStart(p, s.sessionDate) == k {
        var s :| s in rows && s.status == Completed && PeriodStart(p, s.sessionDate) == k;
        assert PeriodKey(p)(s) in KeysOf(done, PeriodKey(p));
      }
    }
  }

  // ---------------------------------------------------------------------
  // Session type by status cross-tab.

  /** `groupby(['session_type', 'status']).size().unstack(fill_value=0)`. */
  datatype CrossTab = CrossTab(sessionTypes: seq<string>, statuses: seq<string>, counts: seq<seq<int>>)

  /** The rows of one session type. */
  function OfType(rows: seq<Session>, t: string): (out: seq<Session>)
    ensures IsSubsequence(out, rows)
    ensures forall s :: multiset(out)[s] == if s.sessionType == t then multiset(rows)[s] else 0
    ensures forall s :: s in out <==> s in rows && s.sessionType == t
    ensures |out| == SumWhere(rows, SessionTypeOf, t, One)
  {
    if rows == [] then []
    else
      assert rows == [rows[0]] + rows[1..];
      var rest := OfType(rows[1..], t);
      if rows[0].sessionType == t then [rows[0]] + rest else rest
  }

  /** The number of rows of type `t` and status `st`. */
  function Cell(rows: seq<Session>, t: string, st: string): int {
    SumWhere(OfType(rows, t), StatusOf, st, One)
  }

  function CountRow(rows: seq<Session>, t: string, sts: seq<string>): (r: seq<int>)
    ensures |r| == |sts| && forall j :: 0 <= j < |sts| ==> r[j] == Cell(rows, t, sts[j])
  {
    if sts == [] then [] else [Cell(rows, t, sts[0])] + CountRow(rows, t, sts[1..])
  }

  function CountGrid(rows: seq<Session>, ts: seq<string>, sts: seq<string>): (g: seq<seq<int>>)
    ensures |g| == |ts| && forall i :: 0 <= i < |ts| ==> g[i] == CountRow(rows, ts[i], sts)
  {
    if ts == [] then [] else [CountRow(rows, ts[0], sts)] + CountGrid(rows, ts[1..], sts)
  }

  function SessionTypeByStatus(rows: seq<Session>): CrossTab {
    var ts := SortedKeys(rows, SessionTypeOf, StringLess);
    var sts := SortedKeys(rows, StatusOf, StringLess);
    CrossTab(ts, sts, CountGrid(rows, ts, sts))
  }

  function RowSum(r: seq<int>): int {
    if r == [] then 0 else r[0] + RowSum(r[1..])
  }

  function GridSum(g: seq<seq<int>>): int {
    if g == [] then 0 else RowSum(g[0]) + GridSum(g[1..])
  }

  lemma {:induction false} CountRowSum(rows: seq<Session>, t: string, sts: seq<string>)
    ensures RowSum(CountRow(rows, t, sts)) == SumOverKeys(sts, OfType(rows, t), StatusOf, One)
  {
    if sts != [] {
      CountRowSum(rows, t, sts[1..]);
    }
  }

  lemma {:induction false} CountGridSum(rows: seq<Session>, ts: seq<string>, sts: seq<string>)
    requires NoDuplicates(sts)
    requires forall s :: s in rows ==> s.status in sts
    ensures GridSum(CountGrid(rows, ts, sts)) == SumOverKeys(ts, rows, SessionTypeOf, One)
  {
    if ts != [] {
      CountGridSum(rows, ts[1..], sts);
      CountRowSum(rows, ts[0], sts);
      PartitionSum(sts, OfType(rows, ts[0]), StatusOf, One);
      SumOfOnes(OfType(rows, ts[0]));
    }
  }

  /** The sorted keys are exactly the observed values of the column, ascending. */
  lemma ObservedKeys(rows: seq<Session>, key: Session -> string)
    ensures var ks := SortedKeys(rows, key, StringLess);
      && StrictlySorted(ks, StringLess)
      && NoDuplicates(ks)
      && (forall k :: k in ks <==> exists s :: s in rows && key(s) == k)
  {
    StringOrder();
    SortedKeysSorted(rows, key, StringLess);
    RowKeysListed(rows, key, StringLess);
  }

  /**
   * The grid's axes are the observed session types (rows) and the observed
   * statuses (columns), both ascending.
   */
  lemma CrossTabAxes(rows: seq<Session>)
    ensures var x := SessionTypeByStatus(rows);
      && StrictlySorted(x.sessionTypes, StringLess)
      && StrictlySorted(x.statuses, StringLess)
      && (forall t :: t in x.sessionTypes <==> exists s :: s in rows && s.sessionType == t)
      && (forall st :: st in x.statuses <==> exists s :: s in rows && s.status == st)
  {
    ObservedKeys(rows, SessionTypeOf);
    ObservedKeys(rows, StatusOf);
    var x := SessionTypeByStatus(rows);
    forall t ensures t in x.sessionTypes <==> exists s :: s in rows && s.sessionType == t {
      assert forall s :: SessionTypeOf(s) == s.sessionType;
    }
    forall st ensures st in x.statuses <==> exists s :: s in rows && s.status == st {
      assert forall s :: StatusOf(s) == s.status;
    }
  }

  /** The grid is dense, one count per type and status, each counting the rows of its pair. */
  lemma CrossTabCells(rows: seq<Session>)
    ensures var x := SessionTypeByStatus(rows);
      && |x.counts| == |x.sessionTypes|
      && (forall i :: 0 <= i < |x.counts| ==> |x.counts[i]| == |x.statuses|)
      && (forall i, j :: 0 <= i < |x.counts| && 0 <= j < |x.statuses| ==>
            x.counts[i][j] == Cell(rows, x.sessionTypes[i], x.statuses[j]))
  {
  }

  /** Every row is counted in exactly one cell. */
  lemma CrossTabTotal(rows: seq<Session>)
    ensures GridSum(SessionTypeByStatus(rows).counts) == |rows|
  {
    var ts := SortedKeys(rows, SessionTypeOf, StringLess);
    var sts := SortedKeys(rows, StatusOf, StringLess);
    StringOrder();
    SortedKeysSorted(rows, SessionTypeOf, StringLess);
    SortedKeysSorted(rows, StatusOf, StringLess);
    RowKeysListed(rows, SessionTypeOf, StringLess);
    RowKeysListed(rows, StatusOf, StringLess);
    CountGridSum(rows, ts, sts);
    PartitionSum(ts, rows, SessionTypeOf, One);
    SumOfOnes(rows);
  }

  /** A cell is the count of rows with that type and status, so it is 0 for an absent pair. */
  lemma {:induction false} CellCounts(rows: seq<Session>, t: string, st: string)
    ensures Cell(rows, t, st) >= 0
    ensures Cell(rows, t, st) == 0 <==> !exists s :: s in rows && s.sessionType == t && s.status == st
  {
    var of := OfType(rows, t);
    CountBounds(of, StatusOf, st);
    if exists s :: s in rows && s.sessionType == t && s.status == st {
      var s :| s in rows && s.sessionType == t && s.status == st;
      assert StatusOf(s) in KeysOf(of, StatusOf);
      CountPositive(of, StatusOf, st);
    } else {
      CellZero(of, st);
    }
  }

  lemma {:induction false} CellZero(rows: seq<Session>, st: string)
    requires forall s :: s in rows ==> s.status != st
    ensures SumWhere(rows, StatusOf, st, One) == 0
  {
    if rows != [] {
      assert rows[0] in rows;
      forall s | s in rows[1..] ensures s.status != st {
        assert s in rows;
      }
      CellZero(rows[1..], st);
    }
  }

  // ---------------------------------------------------------------------
  // Revenue by therapist.

  /** Completed revenue per therapist, `sort_values(ascending=False)`. */
  function RevenueByTherapist(rows: seq<Session>): seq<Bucket<string>> {
    GroupTotalsDesc(CompletedRows(rows), TherapistName, AmountOf, StringLess)
  }

  /**
   * One entry per therapist with a Completed row, holding that therapist's
   * Completed revenue; largest first; the entries add up to the total revenue.
   */
  lemma RevenueByTherapistFacts(rows: seq<Session>)
    ensures var r := RevenueByTherapist(rows);
      && NonIncreasing(r)
      && NoDuplicates(Keys(r))
      && (forall name :: name in Keys(r) <==>
            exists s :: s in rows && s.status == Completed && s.therapistName == name)
      && (forall b :: b in r ==> b.total == SumWhere(CompletedRows(rows), TherapistName, b.key, AmountOf))
      && TotalOf(r) == TotalRevenue(rows)
  {
    var done := CompletedRows(rows);
    StringOrder();
    GroupTotalsDescKeys(done, TherapistName, AmountOf, StringLess);
    GroupTotalsDescTotals(done, TherapistName, AmountOf, StringLess);
    forall name ensures name in Keys(RevenueByTherapist(rows)) <==>
      exists s :: s in rows && s.status == Completed && s.therapistName == name
    {
      if exists s :: s in rows && s.status == Completed && s.therapistName == name {
        var s :| s in rows && s.status == Completed && s.therapistName == name;
        assert TherapistName(s) in KeysOf(done, TherapistName);
      }
    }
  }

  // ---------------------------------------------------------------------
  // Edge cases and worked examples.

  /** No rows: every count, rate and sum is 0 and every table is empty. */
  lemma EmptySelection()
    ensures TotalSessions([]) == 0 && CompletionRate([]).num == 0 && NoShowRate([]).num == 0
    ensures TotalRevenue([]) == 0
    ensures TherapistSummary([]) == [] && StatusCounts([]) == [] && RevenueByTherapist([]) == []
    ensures forall p :: RevenueOverTime([], p) == []
    ensures SessionTypeByStatus([]) == CrossTab([], [], [])
  {
  }

  /** A leading row adds one to the count of its own status. */
  lemma ConsRowCounts(s: Session, rows: seq<Session>)
    ensures CountStatus([s] + rows, Completed) == (if s.status == Completed then 1 else 0) + CountStatus(rows, Completed)
    ensures CountStatus([s] + rows, NoShow) == (if s.status == NoShow then 1 else 0) + CountStatus(rows, NoShow)
  {
    assert ([s] + rows)[1..] == rows;
  }

  /** A leading row adds its amount to revenue exactly when it is Completed. */
  lemma ConsRowRevenue(s: Session, rows: seq<Session>)
    ensures TotalRevenue([s] + rows) == (if s.status == Completed then s.amountCents else 0) + TotalRevenue(rows)
  {
    assert ([s] + rows)[1..] == rows;
    var done := CompletedRows(rows);
    assert ([s] + done)[1..] == done;
  }

  /** Three Completed sessions of $100, $150 and $200 and one no-show. */
  lemma ThreeCompletedOneNoShow(a: Session, b: Session, c: Session, d: Session)
    requires a.status == Completed && b.status == Completed && c.status == Completed && d.status == NoShow
    requires a.amountCents == 10000 && b.amountCents == 15000 && c.amountCents == 20000
    ensures TotalRevenue([a, b, c, d]) == 45000
    ensures CompletionRate([a, b, c, d]) == Percent(300, 4)
    ensures NoShowRate([a, b, c, d]) == Percent(100, 4)
  {
    ExampleRevenue(a, b, c, d);
    ExampleCounts(a, b, c, d);
    ExampleRates([a, b, c, d]);
  }

  lemma ExampleRevenue(a: Session, b: Session, c: Session, d: Session)
    requires a.status == Completed && b.status == Completed && c.status == Completed && d.status == NoShow
    requires a.amountCents == 10000 && b.amountCents == 15000 && c.amountCents == 20000
    ensures TotalRevenue([a, b, c, d]) == 45000
  {
    assert NoShow[0] != Completed[0];
    assert [a, b, c, d] == [a] + [b, c, d] && [b, c, d] == [b] + [c, d] && [c, d] == [c] + [d] && [d] == [d] + [];
    ConsRowRevenue(d, []);
    ConsRowRevenue(c, [d]);
    ConsRowRevenue(b, [c, d]);
    ConsRowRevenue(a, [b, c, d]);
  }

  lemma ExampleRates(rows: seq<Session>)
    requires |rows| == 4 && CompletedSessions(rows) == 3 && NoShows(rows) == 1
    ensures CompletionRate(rows) == Percent(300, 4)
    ensures NoShowRate(rows) == Percent(100, 4)
  {
    assert CompletionRate(rows) == RatePercent(3, 4);
    assert NoShowRate(rows) == RatePercent(1, 4);
  }

  lemma ExampleCounts(a: Session, b: Session, c: Session, d: Session)
    requires a.status == Completed && b.status == Completed && c.status == Completed && d.status == NoShow
    ensures CountStatus([a, b, c, d], Completed) == 3
    ensures CountStatus([a, b, c, d], NoShow) == 1
  {
    assert NoShow[0] != Completed[0];
    assert [a, b, c, d] == [a] + [b, c, d] && [b, c, d] == [b] + [c, d] && [c, d] == [c] + [d] && [d] == [d] + [];
    ConsRowCounts(d, []);
    ConsRowCounts(c, [d]);
    ConsRowCounts(b, [c, d]);
    ConsRowCounts(a, [b, c, d]);
  }

  /** Two Completed sessions in one month, $50 and $75, make one monthly bucket of $125. */
  lemma OneMonthOneBucket(a: Session, b: Session)
    requires a.status == Completed && b.status == Completed
    requires ValidDate(a.sessionDate) && ValidDate(b.sessionDate)
    requires a.sessionDate.year == b.sessionDate.year && a.sessionDate.month == b.sessionDate.month
    requires a.amountCents == 5000 && b.amountCents == 7500
    ensures RevenueOverTime([a, b], Monthly)
         == [Bucket(Date(a.sessionDate.year, a.sessionDate.month, 1), 12500)]
  {
    var rows := [a, b];
    assert rows[1..] == [b] && [b][1..] == [];
    assert CompletedRows([b]) == [b];
    assert CompletedRows(rows) == rows;
    var m := Date(a.sessionDate.year, a.sessionDate.month, 1);
    var key := PeriodKey(Monthly);
    assert key(a) == m && key(b) == m;
    assert SortedKeys([b], key, DateLess) == [m];
    assert SortedKeys(rows, key, DateLess) == [m];
    assert SumWhere([b], key, m, AmountOf) == 7500;
    assert SumWhere(rows, key, m, AmountOf) == 12500;
  }
}
