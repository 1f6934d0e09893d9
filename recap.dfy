/** The numbers behind showDailyRecap (script.js:176-179, 192) and
    showMonthlyRecap (script.js:212-225, 237); the HTML around them is not modelled. */
module Recap {
  import opened LedgerTypes
  import opened Aggregation
  import opened Store

  /** What the daily recap shows: today's totals, the records, and whether the
      "no transactions today" line is shown instead of them. */
  datatype DailySummary = DailySummary(date: Date, totalIncome: int, totalExpense: int, balance: int,
                                       lines: seq<Tx>, noTransactions: bool)

  /** What the monthly recap shows: the month's archived days, their summed stored totals,
      and whether the "no data this month" line is shown. */
  datatype MonthlySummary = MonthlySummary(month: int, year: int, days: seq<DayEntry>,
                                           totalIncome: int, totalExpense: int, balance: int, noData: bool)

  /** showDailyRecap over the working list. */
  function DailyRecap(ws: seq<Tx>, today: Date): DailySummary
  {
    DailySummary(today, Total(ws, Income), Total(ws, Expense), Balance(ws), ws, |ws| == 0)
  }

  /** script.js:219: same month and same year as today. */
  predicate InMonth(d: Date, today: Date)
  {
    d.month == today.month && d.year == today.year
  }

  /** `archive.filter(...)` at script.js:217-220, in archive order. */
  function MonthEntries(archive: seq<DayEntry>, today: Date): (r: seq<DayEntry>)
    ensures |r| <= |archive|
    ensures forall e :: e in r <==> e in archive && InMonth(e.date, today)
  {
    if archive == [] then []
    else (if InMonth(archive[0].date, today) then [archive[0]] else []) + MonthEntries(archive[1..], today)
  }

  /** `monthlyData.reduce((sum, day) => sum + day.totalIncome, 0)`. */
  function SumIncome(days: seq<DayEntry>): int
  {
    if days == [] then 0 else SumIncome(days[..|days| - 1]) + days[|days| - 1].totalIncome
  }

  /** `monthlyData.reduce((sum, day) => sum + day.totalExpense, 0)`. */
  function SumExpense(days: seq<DayEntry>): int
  {
    if days == [] then 0 else SumExpense(days[..|days| - 1]) + days[|days| - 1].totalExpense
  }

  /** showMonthlyRecap over the archive; `today` gives the month and the year. */
  function MonthlyRecap(archive: seq<DayEntry>, today: Date): MonthlySummary
  {
    var days := MonthEntries(archive, today);
    var income := SumIncome(days);
    var expense := SumExpense(days);
    MonthlySummary(today.month, today.year, days, income, expense, income - expense, |days| == 0)
  }

  /** The records of several archived days, one day after the other. */
  function Flatten(days: seq<DayEntry>): seq<Tx>
  {
    if days == [] then [] else Flatten(days[..|days| - 1]) + days[|days| - 1].transactions
  }

  /** The daily recap's balance is the signed sum of the day's amounts, and an empty day
      shows zero totals next to its "no transactions" line. */
  lemma DailyRecapTotals(ws: seq<Tx>, today: Date)
    ensures DailyRecap(ws, today).balance == SignedSum(ws)
    ensures DailyRecap(ws, today).noTransactions <==> ws == []
    ensures ws == [] ==> DailyRecap(ws, today).totalIncome == 0 && DailyRecap(ws, today).totalExpense == 0
  {
    BalanceIsSignedSum(ws);
  }

  lemma {:induction false} MonthEntriesAppend(a: seq<DayEntry>, b: seq<DayEntry>, today: Date)
    ensures MonthEntries(a + b, today) == MonthEntries(a, today) + MonthEntries(b, today)
  {
    if a == [] {
      assert a + b == b;
    } else {
      assert (a + b)[0] == a[0];
      assert (a + b)[1..] == a[1..] + b;
      MonthEntriesAppend(a[1..], b, today);
    }
  }

  lemma {:induction false} SumsAppend(a: seq<DayEntry>, b: seq<DayEntry>)
    ensures SumIncome(a + b) == SumIncome(a) + SumIncome(b)
    ensures SumExpense(a + b) == SumExpense(a) + SumExpense(b)
  {
    if b == [] {
      assert a + b == a;
    } else {
      var c := a + b;
      assert c[..|c| - 1] == a + b[..|b| - 1];
      assert c[|c| - 1] == b[|b| - 1];
      SumsAppend(a, b[..|b| - 1]);
    }
  }

  /** A month with no archived day shows zero totals and the "no data" line. */
  lemma MonthlyRecapEmpty(archive: seq<DayEntry>, today: Date)
    requires forall e :: e in archive ==> !InMonth(e.date, today)
    ensures MonthlyRecap(archive, today).noData
    ensures MonthlyRecap(archive, today).totalIncome == 0 && MonthlyRecap(archive, today).totalExpense == 0
    ensures MonthlyRecap(archive, today).balance == 0
  {
    var r := MonthEntries(archive, today);
    assert forall i :: 0 <= i < |r| ==> r[i] in archive && InMonth(r[i].date, today);
  }

  /** Archiving a non-empty day on `today` adds that day to today's monthly recap: the selection
      gains the entry at its end and the monthly totals grow by the day's totals. */
  lemma MonthlyAfterRollover(archive: seq<DayEntry>, ws: seq<Tx>, today: Date)
    ensures MonthEntries(archive + [MakeDayEntry(today, ws)], today)
         == MonthEntries(archive, today) + [MakeDayEntry(today, ws)]
    ensures MonthlyRecap(archive + [MakeDayEntry(today, ws)], today).totalIncome
         == MonthlyRecap(archive, today).totalIncome + Total(ws, Income)
    ensures MonthlyRecap(archive + [MakeDayEntry(today, ws)], today).totalExpense
         == MonthlyRecap(archive, today).totalExpense + Total(ws, Expense)
    ensures MonthlyRecap(archive + [MakeDayEntry(today, ws)], today).balance
         == MonthlyRecap(archive, today).balance + Balance(ws)
  {
    var e := MakeDayEntry(today, ws);
    MonthEntriesAppend(archive, [e], today);
    assert MonthEntries([e], today) == [e];
    SumsAppend(MonthEntries(archive, today), [e]);
    assert SumIncome([e]) == e.totalIncome;
    assert SumExpense([e]) == e.totalExpense;
  }

  /** The monthly totals are sums of the stored per-day totals; when those are consistent they
      equal the totals recomputed over all the month's records. */
  lemma {:induction false} StoredSumsMatchRecomputed(days: seq<DayEntry>)
    requires forall e :: e in days ==> EntryConsistent(e)
    ensures SumIncome(days) == Total(Flatten(days), Income)
    ensures SumExpense(days) == Total(Flatten(days), Expense)
    ensures SumIncome(days) - SumExpense(days) == Balance(Flatten(days))
  {
    if days != [] {
      var init, last := days[..|days| - 1], days[|days| - 1];
      assert last in days;
      assert forall e :: e in init ==> e in days;
      StoredSumsMatchRecomputed(init);
      TotalAppend(Flatten(init), last.transactions, Income);
      TotalAppend(Flatten(init), last.transactions, Expense);
    }
  }

  /** For a consistent archive the monthly recap agrees with recomputing the month from its records. */
  lemma MonthlyMatchesRecomputed(archive: seq<DayEntry>, today: Date)
    requires forall e :: e in archive ==> EntryConsistent(e)
    ensures MonthlyRecap(archive, today).totalIncome == Total(Flatten(MonthEntries(archive, today)), Income)
    ensures MonthlyRecap(archive, today).totalExpense == Total(Flatten(MonthEntries(archive, today)), Expense)
    ensures MonthlyRecap(archive, today).balance == Balance(Flatten(MonthEntries(archive, today)))
  {
    StoredSumsMatchRecomputed(MonthEntries(archive, today));
  }

  /** The monthly recap trusts the stored totals: an entry whose stored income disagrees with its
      records is summed as stored. */
  lemma MonthlyUsesStoredTotals(d: Date, income: int)
    requires income != 0
    ensures MonthlyRecap([DayEntry(d, [], income, 0, income)], d).totalIncome == income
    ensures Total(Flatten(MonthEntries([DayEntry(d, [], income, 0, income)], d)), Income) == 0
  {
    var e := DayEntry(d, [], income, 0, income);
    assert MonthEntries([e], d) == [e];
    assert Flatten([e]) == [];
    assert [e][..0] == [];
    assert SumIncome([e]) == income;
  }

  /** June 2025 out of an archive holding a June and a July day: only the June day, with its totals. */
  lemma MonthlyScenario()
    ensures MonthlyRecap([DayEntry(Date(1, 6, 2025), [], 10000, 4000, 6000),
                          DayEntry(Date(15, 7, 2025), [], 2000, 0, 2000)], Date(20, 6, 2025))
         == MonthlySummary(6, 2025, [DayEntry(Date(1, 6, 2025), [], 10000, 4000, 6000)], 10000, 4000, 6000, false)
  {
    var june, july := DayEntry(Date(1, 6, 2025), [], 10000, 4000, 6000), DayEntry(Date(15, 7, 2025), [], 2000, 0, 2000);
    assert [june, july][1..] == [july];
    assert MonthEntries([july], Date(20, 6, 2025)) == [];
    assert MonthEntries([june, july], Date(20, 6, 2025)) == [june];
  }

  /** A day recorded on 31 May and rolled over on 1 June is labelled 1 June, so it counts
      toward June's recap and not May's. */
  lemma RolledDayCountsInRolloverMonth(ws: seq<Tx>)
    ensures MonthEntries([MakeDayEntry(Date(1, 6, 2025), ws)], Date(31, 5, 2025)) == []
    ensures MonthEntries([MakeDayEntry(Date(1, 6, 2025), ws)], Date(1, 6, 2025)) == [MakeDayEntry(Date(1, 6, 2025), ws)]
  {
  }
}
