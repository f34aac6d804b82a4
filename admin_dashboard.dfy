/**
 * The report engine of the admin dashboard (components/AdminDashboard.tsx):
 * the inventory and category searches, the period filters with their
 * newest-first ordering, revenue, the twelve-month recap, the down-payment
 * receivables and the units-sold / stock figures.
 */
module AdminDashboard {

  import opened Seqs
  import opened Text
  import opened Types
  import opened Payment
  import opened ProductList

  // ------------------------------------------------------------ searches

  /** A category matches the search when its lower-cased name contains the lower-cased term. */
  predicate CategoryMatches(c: string, term: string)
  {
    Contains(ToLower(c), ToLower(term))
  }

  /** The category list under the category search box. */
  function FilteredCategories(cs: seq<string>, term: string): (r: seq<string>)
    ensures forall c :: c in r <==> c in cs && CategoryMatches(c, term)
    ensures forall c :: multiset(r)[c] == if CategoryMatches(c, term) then multiset(cs)[c] else 0
    ensures IsSubsequence(r, cs)
    ensures term == "" ==> r == cs
  {
    var keep := (c: string) => CategoryMatches(c, term);
    assert term == "" ==> Filter(cs, keep) == cs by {
      if term == "" {
        assert forall i :: 0 <= i < |cs| ==> keep(cs[i]);
        FilterAll(cs, keep);
      }
    }
    Filter(cs, keep)
  }

  // ------------------------------------------------------- period filter

  /** Characters 0-3 of a date: its year. */
  function YearOf(date: string): (y: string)
    ensures |date| >= 4 ==> y == date[..4]
    ensures |date| < 4 ==> y == date
  {
    Substring(date, 0, 4)
  }

  /**
   * Characters 5-6 of a date read by `parseInt` without a radix: its month,
   * with a leading zero dropped; "0x" is a hex prefix with no digit, NaN.
   */
  function MonthOf(date: string): (m: Option<nat>)
    ensures m.None? <==> |date| <= 5 || !IsDigit(date[5]) ||
                         (|date| >= 7 && date[5] == '0' && (date[6] == 'x' || date[6] == 'X'))
    ensures m.Some? && |date| >= 7 && IsDigit(date[6]) ==>
      m.value == 10 * (date[5] as int - '0' as int) + (date[6] as int - '0' as int)
    ensures m.Some? && (|date| == 6 || !IsDigit(date[6])) ==> m.value == date[5] as int - '0' as int
    ensures m.Some? ==> m.value < 100
  {
    var slice := Substring(date, 5, 7);
    ParseShort(slice);
    assert |date| >= 7 ==> slice == [date[5], date[6]];
    assert |date| == 6 ==> slice == [date[5]];
    ParseInt(slice)
  }

  /**
   * On a well-formed `YYYY-MM-DD` date the year is its first four characters
   * and the month is the two-digit month as a number; "05" reads as 5.
   */
  lemma IsoDateParts(date: string)
    requires |date| == 10 && IsDigit(date[5]) && IsDigit(date[6])
    ensures YearOf(date) == date[..4]
    ensures MonthOf(date) == Some(10 * (date[5] as int - '0' as int) + (date[6] as int - '0' as int))
  {
  }

  /** `parseInt` stops at the first non-digit, so "2024-5-17" still reads as May. */
  lemma MonthOfExamples()
    ensures MonthOf("2024-05-17") == Some(5)
    ensures MonthOf("2024-12-01") == Some(12)
    ensures MonthOf("2024-5-17") == Some(5)
    ensures MonthOf("2024") == None
    ensures MonthOf("2024-0x-01") == None
  {
  }

  /** The report selector; the month of a monthly report is the number chosen (1-12). */
  datatype ReportType =
    | Daily(date: string)
    | Range(start: string, end: string)
    | Monthly(month: int, year: string)
    | Annual(year: string)

  /** Whether a transaction belongs to the flat list of a report. */
  predicate InPeriod(t: Transaction, mode: ReportType)
    ensures mode.Annual? ==> !InPeriod(t, mode)
    ensures InPeriod(t, mode) && mode.Range? ==> LexLe(mode.start, mode.end)
    ensures InPeriod(t, mode) && mode.Monthly? ==> |t.date| > 5 && IsDigit(t.date[5]) && 0 <= mode.month < 100
  {
    match mode
    case Daily(d) => t.date == d
    case Range(start, end) =>
      if LexLe(start, t.date) && LexLe(t.date, end) then
        LexLeTransitive(start, t.date, end);
        true
      else false
    case Monthly(m, y) => YearOf(t.date) == y && MonthOf(t.date) == Some(m)
    case Annual(_) => false
  }

  /** The transactions of a report, in ledger order. */
  function Matching(ts: seq<Transaction>, mode: ReportType): seq<Transaction>
  {
    Filter(ts, (t: Transaction) => InPeriod(t, mode))
  }

  /** Each date is no later than the one before it. */
  predicate NewestFirst(s: seq<Transaction>)
  {
    |s| <= 1 || (LexLe(s[1].date, s[0].date) && NewestFirst(s[1..]))
  }

  /** The transactions of `s` dated `d`, in order. */
  function OnDate(s: seq<Transaction>, d: string): seq<Transaction>
  {
    Filter(s, (t: Transaction) => t.date == d)
  }

  /** Puts `t` before the first element that is not newer than it. */
  function InsertByDate(t: Transaction, s: seq<Transaction>): (r: seq<Transaction>)
    ensures |r| == |s| + 1 && r != []
    ensures multiset(r) == multiset(s) + multiset{t}
    ensures r[0] == t || (s != [] && r[0] == s[0])
    ensures NewestFirst(s) ==> NewestFirst(r)
  {
    if s == [] || LexLe(s[0].date, t.date) then [t] + s
    else
      var rest := InsertByDate(t, s[1..]);
      assert s == [s[0]] + s[1..];
      assert LexLess(t.date, s[0].date) by { LexLessTotal(t.date, s[0].date); }
      [s[0]] + rest
  }

  /**
   * The newest-first order of the report table: a stable sort on the date,
   * so transactions of the same day keep their ledger order.
   */
  function SortNewestFirst(s: seq<Transaction>): (r: seq<Transaction>)
    ensures |r| == |s|
    ensures multiset(r) == multiset(s)
    ensures NewestFirst(r)
  {
    if s == [] then []
    else
      assert s == [s[0]] + s[1..];
      InsertByDate(s[0], SortNewestFirst(s[1..]))
  }

  /** Inserting keeps the same-day order: `t` lands before every transaction of its own day. */
  lemma {:induction false} InsertKeepsDayOrder(t: Transaction, s: seq<Transaction>, d: string)
    ensures OnDate(InsertByDate(t, s), d) == if t.date == d then [t] + OnDate(s, d) else OnDate(s, d)
  {
    if s == [] || LexLe(s[0].date, t.date) {
      assert ([t] + s)[1..] == s;
    } else {
      InsertKeepsDayOrder(t, s[1..], d);
      var r := InsertByDate(t, s);
      assert r[1..] == InsertByDate(t, s[1..]);
      assert s[0].date != t.date;
    }
  }

  /** The sort is stable: the transactions of any one day appear in ledger order. */
  lemma {:induction false} SortKeepsDayOrder(s: seq<Transaction>, d: string)
    ensures OnDate(SortNewestFirst(s), d) == OnDate(s, d)
  {
    if s != [] {
      SortKeepsDayOrder(s[1..], d);
      InsertKeepsDayOrder(s[0], SortNewestFirst(s[1..]), d);
    }
  }

  /** `NewestFirst` compares neighbours; by transitivity every earlier entry is at least as new. */
  lemma {:induction false} NewestFirstPairwise(s: seq<Transaction>)
    requires NewestFirst(s)
    ensures forall i, j :: 0 <= i < j < |s| ==> LexLe(s[j].date, s[i].date)
  {
    if |s| > 1 {
      NewestFirstPairwise(s[1..]);
      forall i, j | 0 <= i < j < |s| ensures LexLe(s[j].date, s[i].date) {
        if i > 0 {
          assert s[i] == s[1..][i - 1] && s[j] == s[1..][j - 1];
        } else if j > 1 {
          assert s[j] == s[1..][j - 1] && s[1] == s[1..][0];
          LexLeTransitive(s[j].date, s[1].date, s[0].date);
        }
      }
    }
  }

  /**
   * `filteredTransactions`: exactly the transactions of the report, a
   * permutation of them sorted newest first, same-day ones in ledger order;
   * the annual report has no flat list.
   */
  function FilteredTransactions(ts: seq<Transaction>, mode: ReportType): (r: seq<Transaction>)
    ensures forall t :: t in r <==> t in ts && InPeriod(t, mode)
    ensures multiset(r) == multiset(Matching(ts, mode))
    ensures NewestFirst(r)
    ensures forall d :: OnDate(r, d) == OnDate(Matching(ts, mode), d)
    ensures mode.Annual? ==> r == []
  {
    var m := Matching(ts, mode);
    assert forall t :: t in m <==> t in multiset(m);
    var r := SortNewestFirst(m);
    assert forall t :: t in r <==> t in multiset(r);
    forall d ensures OnDate(r, d) == OnDate(m, d) {
      SortKeepsDayOrder(m, d);
    }
    r
  }

  /** A sequence all dated `d` is its own same-day list. */
  lemma AllOnDate(s: seq<Transaction>, d: string)
    requires forall i :: 0 <= i < |s| ==> s[i].date == d
    ensures OnDate(s, d) == s
  {
    FilterAll(s, (t: Transaction) => t.date == d);
  }

  /** The daily filter is the same-day list. */
  lemma DailyMatchingIsOnDate(ts: seq<Transaction>, d: string)
    ensures Matching(ts, Daily(d)) == OnDate(ts, d)
  {
    FilterCongruent(ts, (t: Transaction) => InPeriod(t, Daily(d)), (t: Transaction) => t.date == d);
  }

  /** A daily report is the ledger's transactions of that day, in ledger order. */
  lemma DailyReportIsThatDay(ts: seq<Transaction>, d: string)
    ensures FilteredTransactions(ts, Daily(d)) == OnDate(ts, d)
  {
    var m := Matching(ts, Daily(d));
    DailyMatchingIsOnDate(ts, d);
    var r := FilteredTransactions(ts, Daily(d));
    forall i | 0 <= i < |r| ensures r[i].date == d {
      assert r[i] in r;
    }
    AllOnDate(r, d);
    AllOnDate(m, d);
    assert OnDate(r, d) == OnDate(m, d);
  }

  /** A range whose end is before its start selects nothing. */
  lemma InvertedRangeIsEmpty(ts: seq<Transaction>, start: string, end: string)
    requires LexLess(end, start)
    ensures FilteredTransactions(ts, Range(start, end)) == []
  {
    var r := FilteredTransactions(ts, Range(start, end));
    if r != [] {
      var t := r[0];
      assert t in r;
      assert InPeriod(t, Range(start, end));
      LexLessAsymmetric(end, start);
    }
  }

  // -------------------------------------------------------------- revenue

  /** Only paid-in-full and down-payment transactions bring money in. */
  predicate CountsAsRevenue(t: Transaction)
  {
    t.status == Lunas || t.status == DP
  }

  /**
   * `t.paidAmount || (t.status === 'Lunas' ? t.totalAmount : 0)`: a recorded
   * non-zero amount; otherwise (absent or 0) the total for Lunas and 0 for
   * the rest.
   */
  function MoneyIn(t: Transaction): (r: int)
    ensures t.paidAmount.Some? && t.paidAmount.value != 0 ==> r == t.paidAmount.value
    ensures (t.paidAmount.None? || t.paidAmount.value == 0) ==> r == (if t.status == Lunas then t.totalAmount else 0)
  {
    OrElse(t.paidAmount, if t.status == Lunas then t.totalAmount else 0)
  }

  /** What one transaction adds to a revenue figure. */
  function Contribution(t: Transaction): int
  {
    if CountsAsRevenue(t) then MoneyIn(t) else 0
  }

  /** One transaction, filtered and summed, adds its contribution. */
  lemma FilteredSumOne(x: Transaction)
    ensures SumOf(Filter([x], CountsAsRevenue), MoneyIn) == Contribution(x)
  {
  }

  /** Keeping Lunas and DP and summing their money in is summing every contribution. */
  lemma {:induction false} FilteredSumIsContributionSum(ts: seq<Transaction>)
    ensures SumOf(Filter(ts, CountsAsRevenue), MoneyIn) == SumOf(ts, Contribution)
  {
    if ts != [] {
      var init, last := ts[..|ts| - 1], ts[|ts| - 1];
      assert ts == init + [last];
      FilteredSumIsContributionSum(init);
      FilterAppend(init, [last], CountsAsRevenue);
      SumOfAppend(Filter(init, CountsAsRevenue), Filter([last], CountsAsRevenue), MoneyIn);
      FilteredSumOne(last);
    }
  }

  /**
   * `filteredRevenue`: keep Lunas and DP, then add up their money in. It is
   * the sum of the contributions, so pending transactions add nothing.
   */
  function Revenue(ts: seq<Transaction>): (r: int)
    ensures r == SumOf(ts, Contribution)
    ensures (forall i :: 0 <= i < |ts| ==> ts[i].status == Pending) ==> r == 0
  {
    FilteredSumIsContributionSum(ts);
    assert (forall i :: 0 <= i < |ts| ==> ts[i].status == Pending) ==> SumOf(ts, Contribution) == 0 by {
      if forall i :: 0 <= i < |ts| ==> ts[i].status == Pending {
        SumOfZero(ts, Contribution);
      }
    }
    SumOf(Filter(ts, CountsAsRevenue), MoneyIn)
  }

  lemma {:induction false} ContributionsIgnoreOrder(s: seq<Transaction>)
    ensures SumOf(SortNewestFirst(s), Contribution) == SumOf(s, Contribution)
  {
    if s != [] {
      var rest := SortNewestFirst(s[1..]);
      assert SortNewestFirst(s) == InsertByDate(s[0], rest);
      ContributionsIgnoreOrder(s[1..]);
      InsertAdds(s[0], rest);
      assert s == [s[0]] + s[1..];
      SumOfCons(s[0], s[1..], Contribution);
    }
  }

  lemma {:induction false} InsertAdds(t: Transaction, s: seq<Transaction>)
    ensures SumOf(InsertByDate(t, s), Contribution) == Contribution(t) + SumOf(s, Contribution)
  {
    if s == [] || LexLe(s[0].date, t.date) {
      SumOfCons(t, s, Contribution);
    } else {
      InsertAdds(t, s[1..]);
      SumOfCons(s[0], InsertByDate(t, s[1..]), Contribution);
      SumOfCons(s[0], s[1..], Contribution);
      assert s == [s[0]] + s[1..];
    }
  }

  /** The revenue shown for a report is the total contribution of its transactions, whatever the display order. */
  lemma ReportRevenue(ts: seq<Transaction>, mode: ReportType)
    ensures Revenue(FilteredTransactions(ts, mode)) == SumOf(Matching(ts, mode), Contribution)
  {
    ContributionsIgnoreOrder(Matching(ts, mode));
  }

  /**
   * For a consistent transaction with a total that is not negative, the
   * revenue rule (`||`) and the invoice rule (`??`) count the same money.
   */
  lemma MoneyInMatchesInvoice(t: Transaction)
    requires Consistent(t) && t.totalAmount >= 0 && CountsAsRevenue(t)
    ensures MoneyIn(t) == EffectivePaid(t)
  {
  }

  // -------------------------------------------------------- annual recap

  const MonthNames: seq<string> := [
    "Januari", "Februari", "Maret", "April", "Mei", "Juni",
    "Juli", "Agustus", "September", "Oktober", "November", "Desember"]

  /** One row of the annual recap. */
  datatype MonthRecap = MonthRecap(id: int, name: string, transactionCount: int, revenue: int)

  /** The transaction falls in month `m` of `year` and brings money in. */
  predicate InBucket(t: Transaction, year: string, m: int)
  {
    YearOf(t.date) == year && CountsAsRevenue(t) && MonthOf(t.date) == Some(m)
  }

  function BucketCount(t: Transaction, year: string, m: int): int
  {
    if InBucket(t, year, m) then 1 else 0
  }

  function BucketRevenue(t: Transaction, year: string, m: int): int
  {
    if InBucket(t, year, m) then MoneyIn(t) else 0
  }

  function MonthCount(ts: seq<Transaction>, year: string, m: int): int
  {
    SumOf(ts, (t: Transaction) => BucketCount(t, year, m))
  }

  function MonthRevenue(ts: seq<Transaction>, year: string, m: int): int
  {
    SumOf(ts, (t: Transaction) => BucketRevenue(t, year, m))
  }

  /** The recap the dashboard should show: twelve rows, months 1 to 12 in order. */
  function Recap(ts: seq<Transaction>, year: string): (r: seq<MonthRecap>)
    ensures |r| == 12
    ensures forall i :: 0 <= i < 12 ==> r[i].id == i + 1 && r[i].name == MonthNames[i]
  {
    seq(12, i requires 0 <= i < 12 =>
      MonthRecap(i + 1, MonthNames[i], MonthCount(ts, year, i + 1), MonthRevenue(ts, year, i + 1)))
  }

  /**
   * `annualRecap`: twelve zeroed buckets, then one pass over the ledger that
   * adds each Lunas or DP transaction of the year to its month; months
   * outside 1-12 are skipped.
   */
  method AnnualRecap(ts: seq<Transaction>, year: string) returns (recap: seq<MonthRecap>)
    ensures recap == Recap(ts, year)
  {
    var months := new MonthRecap[12](i requires 0 <= i < 12 => MonthRecap(i + 1, MonthNames[i], 0, 0));
    var k := 0;
    while k < |ts|
      invariant 0 <= k <= |ts|
      invariant forall i :: 0 <= i < 12 ==>
        months[i] == MonthRecap(i + 1, MonthNames[i], MonthCount(ts[..k], year, i + 1), MonthRevenue(ts[..k], year, i + 1))
    {
      var t := ts[k];
      assert ts[..k + 1][..k] == ts[..k];
      var tMonth := MonthOf(t.date);
      if YearOf(t.date) == year && (t.status == Lunas || t.status == DP) {
        if tMonth.Some? && 1 <= tMonth.value <= 12 {
          var idx := tMonth.value - 1;
          months[idx] := months[idx].(transactionCount := months[idx].transactionCount + 1,
                                      revenue := months[idx].revenue + MoneyIn(t));
        }
      }
      k := k + 1;
    }
    assert ts[..|ts|] == ts;
    recap := months[..];
  }

  /** `annualTotalRevenue`. */
  function TotalRevenue(recap: seq<MonthRecap>): (r: int)
    ensures recap == [] ==> r == 0
    ensures (forall i :: 0 <= i < |recap| ==> recap[i].revenue >= 0) ==> r >= 0
  {
    assert (forall i :: 0 <= i < |recap| ==> recap[i].revenue >= 0) ==> SumOf(recap, (m: MonthRecap) => m.revenue) >= 0 by {
      if forall i :: 0 <= i < |recap| ==> recap[i].revenue >= 0 {
        SumOfAtLeast(recap, (m: MonthRecap) => m.revenue, 0);
      }
    }
    SumOf(recap, (m: MonthRecap) => m.revenue)
  }

  /** `annualTotalTransactions`. */
  function TotalTransactions(recap: seq<MonthRecap>): (r: int)
    ensures recap == [] ==> r == 0
    ensures (forall i :: 0 <= i < |recap| ==> recap[i].transactionCount >= 0) ==> r >= 0
  {
    assert (forall i :: 0 <= i < |recap| ==> recap[i].transactionCount >= 0) ==> SumOf(recap, (m: MonthRecap) => m.transactionCount) >= 0 by {
      if forall i :: 0 <= i < |recap| ==> recap[i].transactionCount >= 0 {
        SumOfAtLeast(recap, (m: MonthRecap) => m.transactionCount, 0);
      }
    }
    SumOf(recap, (m: MonthRecap) => m.transactionCount)
  }

  /** The transaction is a Lunas or DP sale of `year` dated in a month 1-12. */
  predicate InYear(t: Transaction, year: string)
  {
    YearOf(t.date) == year && CountsAsRevenue(t) && MonthOf(t.date).Some? && 1 <= MonthOf(t.date).value <= 12
  }

  function YearCount(ts: seq<Transaction>, year: string): int
  {
    SumOf(ts, (t: Transaction) => if InYear(t, year) then 1 else 0)
  }

  function YearRevenue(ts: seq<Transaction>, year: string): int
  {
    SumOf(ts, (t: Transaction) => if InYear(t, year) then MoneyIn(t) else 0)
  }

  /** The rows from month `m` on, added up, as sums over months. */
  function MonthsCountFrom(ts: seq<Transaction>, year: string, m: int): int
    requires 1 <= m <= 13
    decreases 13 - m
  {
    if m == 13 then 0 else MonthCount(ts, year, m) + MonthsCountFrom(ts, year, m + 1)
  }

  function MonthsRevenueFrom(ts: seq<Transaction>, year: string, m: int): int
    requires 1 <= m <= 13
    decreases 13 - m
  {
    if m == 13 then 0 else MonthRevenue(ts, year, m) + MonthsRevenueFrom(ts, year, m + 1)
  }

  lemma {:induction false} RecapSuffixTotals(ts: seq<Transaction>, year: string, k: nat)
    requires k <= 12
    ensures TotalRevenue(Recap(ts, year)[k..]) == MonthsRevenueFrom(ts, year, k + 1)
    ensures TotalTransactions(Recap(ts, year)[k..]) == MonthsCountFrom(ts, year, k + 1)
    decreases 12 - k
  {
    var r := Recap(ts, year);
    if k < 12 {
      RecapSuffixTotals(ts, year, k + 1);
      assert r[k..] == [r[k]] + r[k + 1..];
      SumOfCons(r[k], r[k + 1..], (m: MonthRecap) => m.revenue);
      SumOfCons(r[k], r[k + 1..], (m: MonthRecap) => m.transactionCount);
    }
  }

  /** Appending one transaction to the ledger adds it to the month rows from `m` on that it falls in. */
  lemma {:induction false} MonthsFromAppend(ts: seq<Transaction>, t: Transaction, year: string, m: int)
    requires 1 <= m <= 13
    ensures var inRange := InYear(t, year) && m <= MonthOf(t.date).value;
      && MonthsRevenueFrom(ts + [t], year, m) == MonthsRevenueFrom(ts, year, m) + (if inRange then MoneyIn(t) else 0)
      && MonthsCountFrom(ts + [t], year, m) == MonthsCountFrom(ts, year, m) + (if inRange then 1 else 0)
    decreases 13 - m
  {
    if m < 13 {
      MonthsFromAppend(ts, t, year, m + 1);
      assert (ts + [t])[..|ts + [t]| - 1] == ts;
    }
  }

  /** The sum of the twelve rows counts each Lunas or DP sale of the year exactly once. */
  lemma {:induction false} MonthsAddUpToYear(ts: seq<Transaction>, year: string)
    ensures MonthsRevenueFrom(ts, year, 1) == YearRevenue(ts, year)
    ensures MonthsCountFrom(ts, year, 1) == YearCount(ts, year)
  {
    if ts == [] {
      MonthsFromEmpty(year, 1);
    } else {
      var init, last := ts[..|ts| - 1], ts[|ts| - 1];
      assert ts == init + [last];
      MonthsAddUpToYear(init, year);
      MonthsFromAppend(init, last, year, 1);
    }
  }

  lemma {:induction false} MonthsFromEmpty(year: string, m: int)
    requires 1 <= m <= 13
    ensures MonthsRevenueFrom([], year, m) == 0 && MonthsCountFrom([], year, m) == 0
    decreases 13 - m
  {
    if m < 13 {
      MonthsFromEmpty(year, m + 1);
    }
  }

  /**
   * The footer of the annual recap: its totals are the number and the
   * money in of the Lunas and DP sales of the year dated in months 1-12.
   */
  lemma AnnualTotals(ts: seq<Transaction>, year: string)
    ensures TotalRevenue(Recap(ts, year)) == YearRevenue(ts, year)
    ensures TotalTransactions(Recap(ts, year)) == YearCount(ts, year)
  {
    RecapSuffixTotals(ts, year, 0);
    assert Recap(ts, year)[0..] == Recap(ts, year);
    MonthsAddUpToYear(ts, year);
  }

  /** A month row of the annual recap shows the same revenue as the monthly report of that month. */
  lemma RecapRowMatchesMonthlyReport(ts: seq<Transaction>, year: string, m: int)
    requires 1 <= m <= 12
    ensures Recap(ts, year)[m - 1].revenue == Revenue(FilteredTransactions(ts, Monthly(m, year)))
  {
    ReportRevenue(ts, Monthly(m, year));
    MonthlyContributions(ts, year, m);
    assert Recap(ts, year)[m - 1].revenue == MonthRevenue(ts, year, m);
  }

  /** One transaction's share of a monthly report is its share of that month's bucket. */
  lemma MonthlyContributionOne(x: Transaction, year: string, m: int)
    ensures SumOf(Matching([x], Monthly(m, year)), Contribution) == BucketRevenue(x, year, m)
  {
    var tail := Matching([x], Monthly(m, year));
    if InPeriod(x, Monthly(m, year)) {
      assert x in tail;
      assert tail == [x];
      SumOfCons(x, [], Contribution);
      assert [x] + [] == [x];
    } else {
      assert tail == [];
    }
  }

  lemma {:induction false} MonthlyContributions(ts: seq<Transaction>, year: string, m: int)
    ensures SumOf(Matching(ts, Monthly(m, year)), Contribution) == MonthRevenue(ts, year, m)
  {
    if ts != [] {
      var init, last := ts[..|ts| - 1], ts[|ts| - 1];
      assert ts == init + [last];
      var mode := Monthly(m, year);
      MonthlyContributions(init, year, m);
      FilterAppend(init, [last], (t: Transaction) => InPeriod(t, mode));
      assert Matching(ts, mode) == Matching(init, mode) + Matching([last], mode);
      SumOfAppend(Matching(init, mode), Matching([last], mode), Contribution);
      MonthlyContributionOne(last, year, m);
      assert MonthRevenue(ts, year, m) == MonthRevenue(init, year, m) + BucketRevenue(last, year, m);
    }
  }

  // --------------------------------------------------------- receivables

  /** `dpTransactions`: exactly the down-payment transactions, in ledger order. */
  function DpTransactions(ts: seq<Transaction>): (r: seq<Transaction>)
    ensures forall t :: t in r <==> t in ts && t.status == DP
    ensures forall t :: multiset(r)[t] == if t.status == DP then multiset(ts)[t] else 0
    ensures IsSubsequence(r, ts)
  {
    Filter(ts, (t: Transaction) => t.status == DP)
  }

  /**
   * The balance still owed on a transaction: `totalAmount - (paidAmount || 0)`.
   * On a consistent down payment it is positive and below the total.
   */
  function Owed(t: Transaction): (r: int)
    ensures t.paidAmount.Some? && t.paidAmount.value != 0 ==> r == t.totalAmount - t.paidAmount.value
    ensures (t.paidAmount.None? || t.paidAmount.value == 0) ==> r == t.totalAmount
    ensures Consistent(t) && t.status == DP ==> 0 < r < t.totalAmount
  {
    t.totalAmount - OrElse(t.paidAmount, 0)
  }

  /**
   * `totalReceivable`: the balance owed, added up over the down-payment
   * transactions. It is 0 without down payments; when every transaction is
   * consistent each down payment owes something, so it is at least their
   * number (and positive as soon as there is one).
   */
  function TotalReceivable(ts: seq<Transaction>): (r: int)
    ensures (forall i :: 0 <= i < |ts| ==> ts[i].status != DP) ==> r == 0
    ensures (forall i :: 0 <= i < |ts| ==> Consistent(ts[i])) ==> r >= |DpTransactions(ts)|
  {
    var dp := DpTransactions(ts);
    assert (forall i :: 0 <= i < |ts| ==> ts[i].status != DP) ==> dp == [] by {
      if dp != [] { assert dp[0] in ts; }
    }
    assert (forall i :: 0 <= i < |ts| ==> Consistent(ts[i])) ==> SumOf(dp, Owed) >= |dp| by {
      if forall i :: 0 <= i < |ts| ==> Consistent(ts[i]) {
        forall i | 0 <= i < |dp| ensures Owed(dp[i]) >= 1 {
          assert dp[i] in ts;
        }
        SumOfAtLeast(dp, Owed, 1);
      }
    }
    SumOf(dp, Owed)
  }

  // ---------------------------------------------------------------- stock

  /** `items.find(i => i.name === name)`: the first line with that name. */
  function FindByName(items: seq<TransactionItem>, name: string): (r: Option<TransactionItem>)
    ensures r.None? <==> forall i :: 0 <= i < |items| ==> items[i].name != name
    ensures r.Some? ==> exists i :: 0 <= i < |items| && items[i] == r.value && items[i].name == name &&
                                    forall j :: 0 <= j < i ==> items[j].name != name
  {
    if items == [] then None
    else if items[0].name == name then Some(items[0])
    else
      var r := FindByName(items[1..], name);
      assert r.Some? ==> exists i :: 0 < i < |items| && items[i] == r.value && items[i].name == name &&
                                     forall j :: 0 <= j < i ==> items[j].name != name by {
        if r.Some? {
          var i :| 0 <= i < |items[1..]| && items[1..][i] == r.value && items[1..][i].name == name &&
                   forall j :: 0 <= j < i ==> items[1..][j].name != name;
          assert items[i + 1] == r.value;
          assert forall j :: 0 < j < i + 1 ==> items[j] == items[1..][j - 1];
        }
      }
      r
  }

  /**
   * The units of a product one transaction contributes: the quantity of the
   * first line with that name, or 0 when no line has it.
   */
  function SoldIn(t: Transaction, name: string): (r: int)
    ensures (forall j :: 0 <= j < |t.items| ==> t.items[j].name != name) ==> r == 0
    ensures forall i :: (0 <= i < |t.items| && t.items[i].name == name &&
                         forall j :: 0 <= j < i ==> t.items[j].name != name) ==> r == t.items[i].quantity
    ensures (forall j :: 0 <= j < |t.items| ==> t.items[j].quantity >= 0) ==> r >= 0
  {
    match FindByName(t.items, name)
    case Some(item) =>
      var k :| 0 <= k < |t.items| && t.items[k] == item && t.items[k].name == name &&
               forall j :: 0 <= j < k ==> t.items[j].name != name;
      item.quantity
    case None => 0
  }

  /**
   * The "Terjual" column: units sold over all transactions, whatever their
   * status. A product on no line has sold nothing; with non-negative
   * quantities the figure is never negative.
   */
  function UnitsSold(ts: seq<Transaction>, name: string): (r: int)
    ensures (forall i, j :: 0 <= i < |ts| && 0 <= j < |ts[i].items| ==> ts[i].items[j].name != name) ==> r == 0
    ensures (forall i, j :: 0 <= i < |ts| && 0 <= j < |ts[i].items| ==> ts[i].items[j].quantity >= 0) ==> r >= 0
  {
    var sold := (t: Transaction) => SoldIn(t, name);
    assert (forall i, j :: 0 <= i < |ts| && 0 <= j < |ts[i].items| ==> ts[i].items[j].name != name) ==>
      SumOf(ts, sold) == 0 by {
      if forall i, j :: 0 <= i < |ts| && 0 <= j < |ts[i].items| ==> ts[i].items[j].name != name {
        forall i | 0 <= i < |ts| ensures sold(ts[i]) == 0 {
          assert forall j :: 0 <= j < |ts[i].items| ==> ts[i].items[j].name != name;
        }
        SumOfZero(ts, sold);
      }
    }
    assert (forall i, j :: 0 <= i < |ts| && 0 <= j < |ts[i].items| ==> ts[i].items[j].quantity >= 0) ==>
      SumOf(ts, sold) >= 0 by {
      if forall i, j :: 0 <= i < |ts| && 0 <= j < |ts[i].items| ==> ts[i].items[j].quantity >= 0 {
        forall i | 0 <= i < |ts| ensures sold(ts[i]) >= 0 {
          assert forall j :: 0 <= j < |ts[i].items| ==> ts[i].items[j].quantity >= 0;
        }
        SumOfAtLeast(ts, sold, 0);
      }
    }
    SumOf(ts, sold)
  }

  /**
   * The "Total Awal" column: current stock plus units sold; the stock itself
   * for a product nobody bought, and never below the stock when quantities
   * are non-negative.
   */
  function EstimatedOriginalStock(p: Product, ts: seq<Transaction>): (r: int)
    ensures (forall i, j :: 0 <= i < |ts| && 0 <= j < |ts[i].items| ==> ts[i].items[j].name != p.name) ==> r == p.stock
    ensures (forall i, j :: 0 <= i < |ts| && 0 <= j < |ts[i].items| ==> ts[i].items[j].quantity >= 0) ==> r >= p.stock
  {
    p.stock + UnitsSold(ts, p.name)
  }

  /** All units of a product on the lines of one transaction. */
  function AllLinesOf(t: Transaction, name: string): int
  {
    SumOf(t.items, (i: TransactionItem) => if i.name == name then i.quantity else 0)
  }

  /** At most one line of the transaction carries this name. */
  predicate AtMostOneLine(t: Transaction, name: string)
  {
    forall i, j :: 0 <= i < j < |t.items| && t.items[i].name == name ==> t.items[j].name != name
  }

  lemma {:induction false} FirstLineIsAllLines(items: seq<TransactionItem>, name: string)
    requires forall i, j :: 0 <= i < j < |items| && items[i].name == name ==> items[j].name != name
    ensures SumOf(items, (i: TransactionItem) => if i.name == name then i.quantity else 0)
         == match FindByName(items, name) case Some(item) => item.quantity case None => 0
  {
    var f := (i: TransactionItem) => if i.name == name then i.quantity else 0;
    if items != [] {
      assert items == [items[0]] + items[1..];
      SumOfCons(items[0], items[1..], f);
      if items[0].name == name {
        forall k | 0 <= k < |items[1..]| ensures f(items[1..][k]) == 0 {
          assert items[1..][k] == items[k + 1];
        }
        SumOfZero(items[1..], f);
      } else {
        FirstLineIsAllLines(items[1..], name);
      }
    }
  }

  /**
   * Counting only the first matching line loses nothing when no transaction
   * has two lines with the product's name (checkout never produces two rows
   * for one product id).
   */
  lemma UnitsSoldCountsAllLines(ts: seq<Transaction>, name: string)
    requires forall i :: 0 <= i < |ts| ==> AtMostOneLine(ts[i], name)
    ensures UnitsSold(ts, name) == SumOf(ts, (t: Transaction) => AllLinesOf(t, name))
  {
    forall i | 0 <= i < |ts| ensures SoldIn(ts[i], name) == AllLinesOf(ts[i], name) {
      FirstLineIsAllLines(ts[i].items, name);
    }
    SumOfCongruent(ts, (t: Transaction) => SoldIn(t, name), (t: Transaction) => AllLinesOf(t, name));
  }

  /** With two lines of the same name, only the first is counted. */
  lemma UnitsSoldCountsFirstLineOnly(name: string)
    ensures var t := Transaction("T", "2024-05-01", "C", None, 0, None, None, Pending,
                                 [TransactionItem(name, 3, 0), TransactionItem(name, 4, 0)]);
      UnitsSold([t], name) == 3 && AllLinesOf(t, name) == 7
  {
    var a, b := TransactionItem(name, 3, 0), TransactionItem(name, 4, 0);
    var t := Transaction("T", "2024-05-01", "C", None, 0, None, None, Pending, [a, b]);
    assert SoldIn(t, name) == 3;
    SumOfCons(t, [], (t: Transaction) => SoldIn(t, name));
    assert [t] + [] == [t];
    var g := (i: TransactionItem) => if i.name == name then i.quantity else 0;
    SumOfCons(a, [b], g);
    SumOfCons(b, [], g);
    assert [b] + [] == [b] && [a] + [b] == [a, b];
  }

  /** The stock label of the inventory table. */
  datatype StockLevel = Aman | Menipis | Kritis

  /** "Aman" above 50, "Menipis" above 10, "Kritis" otherwise. */
  function StockLevelOf(stock: int): (l: StockLevel)
    ensures l == Aman <==> stock > 50
    ensures l == Menipis <==> 10 < stock <= 50
    ensures l == Kritis <==> stock <= 10
  {
    if stock > 50 then Aman else if stock > 10 then Menipis else Kritis
  }

  /**
   * The catalogue badge (stock below 20) and the dashboard label agree at the
   * ends: every "Kritis" product shows the badge, no "Aman" product does.
   */
  lemma BadgeAgreesWithLevel(p: Product)
    ensures StockLevelOf(p.stock) == Kritis ==> ShowsLowStockBadge(p)
    ensures StockLevelOf(p.stock) == Aman ==> !ShowsLowStockBadge(p)
  {
  }
}
