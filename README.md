# Warung ledger: a Dafny model

A model of the cash-ledger logic of a small food stall's single-page app (`script.js`). The
app keeps three values in browser-local storage: today's records (`todayTransactions`), an
append-only archive of past days (`transactionArchive`) and the day last seen
(`lastSavedDate`). On a page load whose stored marker names another day, it archives the
working list (if non-empty, labelled with the load's day) and removes it; the marker always
becomes today. It adds and deletes records, and it shows daily and monthly totals.

Modules:

- `LedgerTypes` (types.dfy): the records. `Tx` is one income or expense entry and `DayEntry`
  is one archived day. `Date` is a calendar day, compared by equality. It stands for the
  `toDateString()` marker and the `formatDate` label.
- `Aggregation` (aggregation.dfy): `calculateTotal` as `Total`, a filter (`OfType`) followed
  by a left-fold sum (`SumAmounts`). `calculateBalance` as `Balance`. Two reference
  definitions (`MatchingSum`, `SignedSum`) are proved equal to them.
- `Store` (store.dfy): class `LedgerStore`, with the three keys as fields. Each key may be
  absent (`Option`), because `localStorage.removeItem` really does remove the working list.
  The class has the init block, `checkNewDay`, `archiveTransactions`, and the store parts of
  `addTransaction` and `deleteTransaction`. Beside it are the delete filter `WithoutId`, its
  lemmas, and client methods for the scenarios these operations promise.
- `Recap` (recap.dfy): the numbers behind `showDailyRecap` and `showMonthlyRecap`. The
  monthly recap selects archive entries by month and year, then sums their stored per-day
  totals.

On these points the model follows the code, which a reader might not expect:

- An archive entry is labelled with the day the rollover runs (`formatDate(today)`,
  script.js:76), not with the stale marker's day. A day recorded on 31 May and rolled over
  on 1 June therefore counts toward June (`RolledDayCountsInRolloverMonth`).
- Delete removes every record with the id, not only the first.
- Amounts are not validated. The source stores whatever `parseFloat` returns, so `amount`
  is any `int` here. Non-negativity appears only as a hypothesis (`TotalNonNegative`).
- A key that cannot be parsed is not recovered from: the source's `JSON.parse` calls throw.

Modelling choices: "today" is a parameter (`today` is fixed once at script.js:14). The new
record's id is a parameter (it comes from `Date.now()`). Amounts are whole Rupiah (`int`).
The source's `type` field is called `kind`, since `type` is a Dafny keyword.

## Model

| member | source | states |
|---|---|---|
| `Aggregation.OfType` | script.js:155 | keeps exactly the records of the given type (membership both ways) and never grows the list |
| `Aggregation.TotalAppend` | script.js:153-157 | the total of a concatenation is the sum of the two totals |
| `Aggregation.TotalIsMatchingSum` | script.js:153-157 | filter-then-reduce equals a one-pass sum of the matching amounts |
| `Aggregation.TotalNoMatch` | script.js:153-157 | the total is 0 when no record has the type, including the empty list |
| `Aggregation.TotalNonNegative` | script.js:153-157 | with non-negative amounts a total is non-negative |
| `Aggregation.MatchingSumNonNegative` | script.js:153-157 | with non-negative amounts the reference sum is non-negative |
| `Aggregation.OfTypeAppend` | script.js:155 | filtering distributes over concatenation, keeping order |
| `Aggregation.SumAppend` | script.js:156 | the reduce sum is additive over concatenation |
| `Aggregation.TotalsPartition` | script.js:153-164 | income total plus expense total is the sum of all amounts |
| `Aggregation.BalanceIsSignedSum` | script.js:160-164 | the balance equals summing income as positive and expense as negative |
| `Aggregation.BalanceAppend` | script.js:160-164 | the balance of a concatenation is the sum of the balances |
| `Aggregation.BalanceNotClamped` | script.js:160-164 | a lone expense gives a negative balance; nothing clamps it at zero |
| `Store.WithoutId` | script.js:169 | keeps exactly the records whose id differs (membership both ways) |
| `Store.WithoutIdAppend` | script.js:169 | deleting from a concatenation deletes from each part in order, so order is preserved |
| `Store.WithoutIdMissing` | script.js:167-170 | deleting an id no record has leaves the list unchanged |
| `Store.AddThenDelete` | script.js:167-170 | appending a record with a fresh id and deleting that id gives back the list |
| `Store.WithoutIdIdempotent` | script.js:169 | deleting the same id twice equals deleting it once |
| `Store.LedgerStore.Init` | script.js:20-28 | each absent key gets its default (empty list, empty archive, today); present keys are kept |
| `Store.LedgerStore.ArchiveTransactions` | script.js:71-88 | an empty working list leaves the archive alone; otherwise exactly one entry labelled today, with the list and its totals, is appended and earlier entries are kept |
| `Store.LedgerStore.CheckNewDay` | script.js:55-68 | the marker ends at today. A current or absent marker changes nothing else. A stale marker archives a non-empty day (and skips an empty one) and removes the working list. The archive only grows and stays consistent |
| `Store.LedgerStore.Load` | script.js:20-31 | a page load leaves the marker at today and the archive present; exactly when the stored marker named another day it removes the working list, first appending one entry labelled today if that list was non-empty |
| `Store.LedgerStore.AddTransaction` | script.js:99-110 | the working list becomes the old one (absent read as empty) with the new record at its end; archive and marker untouched |
| `Store.LedgerStore.AddTransactionAsWritten` | script.js:108-110 | as written: an absent working list makes the parse throw and nothing is stored; otherwise the record is appended |
| `Store.LedgerStore.DeleteTransaction` | script.js:167-170 | the working list becomes exactly the old records whose id differs, in order; a missing id changes nothing; archive and marker untouched |
| `Store.CheckNewDayTwice` | script.js:55-68 | a second rollover check on the same day leaves list and archive as the first left them, with the marker at today |
| `Store.AddThenDeleteRestores` | script.js:167-170 | on the store, add with a fresh id followed by delete of that id restores the working list |
| `Store.RolloverScenario` | script.js:55-88 | a day with 5000 income and 2000 expense, loaded the next day, leaves an archive of exactly one entry (5000, 2000, 3000) labelled with the next day, no working list, and the marker at the next day |
| `Store.NewDayAddAsWritten` | script.js:59-110 | for any store whose marker names another day, the first record added as written after the load is never stored and the working list stays absent |
| `Store.NewDayAdd` | script.js:99-110 | for any such store, with the absent list read as empty, that record becomes the day's only one |
| `Recap.MonthEntries` | script.js:217-220 | selects exactly the archive entries dated in today's month and year (membership both ways) |
| `Recap.MonthEntriesAppend` | script.js:217-220 | the selection distributes over concatenation, so archive order is kept |
| `Recap.SumsAppend` | script.js:223-224 | the monthly income and expense sums are additive over concatenation |
| `Recap.DailyRecapTotals` | script.js:176-192 | the daily balance is the signed sum of the day's amounts; the "no transactions" line shows exactly for an empty list, with zero totals |
| `Recap.MonthlyRecapEmpty` | script.js:223-237 | a month with no archived day shows the "no data" line and zero totals |
| `Recap.MonthlyAfterRollover` | script.js:212-225 | archiving a day on today appends it to today's selection and raises the monthly totals by that day's totals |
| `Recap.StoredSumsMatchRecomputed` | script.js:223-225 | if the stored totals are consistent, their sums equal the totals recomputed over all the days' records |
| `Recap.MonthlyMatchesRecomputed` | script.js:212-225 | for a consistent archive, the monthly recap equals recomputing the month from its records |
| `Recap.MonthlyUsesStoredTotals` | script.js:223-224 | the recap sums stored totals, not the records: an entry without records still adds its stored income |
| `Recap.MonthlyScenario` | script.js:212-225 | June 2025 selected from a June and a July entry gives just the June entry and its totals |
| `Recap.RolledDayCountsInRolloverMonth` | script.js:76-80 | an entry archived on 1 June is counted in June's recap and not in May's |

## Left out

- DOM access, table rendering in `loadTransactions`, `updateSummary`'s display, the recap HTML and the event listeners (script.js:1-17, 34-41, 121-150, 181-207, 227-252): UI glue.
- `printRecap` (script.js:256-285): it opens a window and uses a timer, so it is pure I/O.
- `formatDate` and `formatCurrency` (script.js:44-52): host locale formatting. Dates are the `Date` datatype and amounts are integers.
- JSON text and `localStorage` as a string store: the three keys are typed `Option` fields. A stored value that fails to parse is not modelled.
- `parseFloat` amounts (script.js:95): floating point is out of scope, so amounts are `int`. `NaN` from an empty field is not modelled.
- `Date.now()` ids and `new Date(entry.date)` parsing (script.js:100, 218): the id is a parameter, and the archive stores a `Date` whose month and year are compared directly.
- A `type` other than 'income' or 'expense': the form offers only those two, so `TxType` has only two values.
- The reads at script.js:72, 75, 176 and 212 also throw on an absent key, but the model reads them as empty. After the init block, only the read at 176 can meet an absent key, in the same way as the read at 108 (see Findings).
- Several tabs sharing one store (last write wins): that is concurrency, which the code does not express.

## Findings

| source | as written | input that shows it | evidently intended | confidence | as-written member | corrected member |
|---|---|---|---|---|---|---|
| script.js:108 | an absent `todayTransactions` key is parsed as `JSON.parse([])`, that is `JSON.parse("")`, which throws | open the page on a later day than the stored marker: checkNewDay removes the key (script.js:63), then submit records. Every add throws, and its record is lost, until a reload lets the init block recreate the key (script.js:20-22) | read an absent key as an empty list, as script.js:123 and 168 do | high; not executed | `Store.LedgerStore.AddTransactionAsWritten`, `Store.NewDayAddAsWritten` | `Store.LedgerStore.AddTransaction`, `Store.NewDayAdd` |
