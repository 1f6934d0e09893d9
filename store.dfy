/** The three localStorage keys and the operations that rewrite them: the init block
    (script.js:20-28), checkNewDay (55-68), archiveTransactions (71-88), the store part of
    addTransaction (99-110) and deleteTransaction (167-170). */
module Store {
  import opened LedgerTypes
  import opened Aggregation

  /** How the working list and the archive are read when their key may be absent.
      script.js:123 (`JSON.parse(v || '[]')`) and script.js:168 (`JSON.parse(v) || []`) give an
      empty list. The reads at script.js:72, 75, 108, 176 and 212 are `JSON.parse(v || [])`,
      which parses the empty string and throws when the key is absent; this model reads those
      as empty too, except in AddTransactionAsWritten, which keeps the throw. */
  function ReadOrEmpty<T>(v: Option<seq<T>>): seq<T>
  {
    match v
    case None => []
    case Some(s) => s
  }

  /** The archive entry built at script.js:79-85. Its totals are the ones the daily recap
      shows for the same list (script.js:177-179). */
  function MakeDayEntry(date: Date, ts: seq<Tx>): DayEntry
  {
    DayEntry(date, ts, Total(ts, Income), Total(ts, Expense), Balance(ts))
  }

  /** Stored totals agree with the stored records. */
  predicate EntryConsistent(e: DayEntry)
  {
    && e.totalIncome == Total(e.transactions, Income)
    && e.totalExpense == Total(e.transactions, Expense)
    && e.balance == e.totalIncome - e.totalExpense
  }

  /** `transactions.filter(t => t.id !== id)`: every record with that id goes, the rest keep their order. */
  function WithoutId(ts: seq<Tx>, id: int): (r: seq<Tx>)
    ensures |r| <= |ts|
    ensures forall t :: t in r <==> t in ts && t.id != id
  {
    if ts == [] then []
    else (if ts[0].id != id then [ts[0]] else []) + WithoutId(ts[1..], id)
  }

  /** Deleting from a concatenation deletes from each part, keeping the parts in order. */
  lemma {:induction false} WithoutIdAppend(a: seq<Tx>, b: seq<Tx>, id: int)
    ensures WithoutId(a + b, id) == WithoutId(a, id) + WithoutId(b, id)
  {
    if a == [] {
      assert a + b == b;
    } else {
      assert (a + b)[0] == a[0];
      assert (a + b)[1..] == a[1..] + b;
      WithoutIdAppend(a[1..], b, id);
    }
  }

  /** A missing id leaves the list exactly as it was. */
  lemma {:induction false} WithoutIdMissing(ts: seq<Tx>, id: int)
    requires forall t :: t in ts ==> t.id != id
    ensures WithoutId(ts, id) == ts
  {
    if ts != [] {
      assert ts[0] in ts;
      assert forall t :: t in ts[1..] ==> t in ts;
      WithoutIdMissing(ts[1..], id);
    }
  }

  /** Appending a record with a fresh id and then deleting that id restores the list. */
  lemma AddThenDelete(ts: seq<Tx>, t: Tx)
    requires forall u :: u in ts ==> u.id != t.id
    ensures WithoutId(ts + [t], t.id) == ts
  {
    WithoutIdAppend(ts, [t], t.id);
    WithoutIdMissing(ts, t.id);
  }

  /** Deleting the same id twice is the same as deleting it once. */
  lemma WithoutIdIdempotent(ts: seq<Tx>, id: int)
    ensures WithoutId(WithoutId(ts, id), id) == WithoutId(ts, id)
  {
    WithoutIdMissing(WithoutId(ts, id), id);
  }

  /** The browser's localStorage as this page uses it: three keys, each possibly absent. */
  class LedgerStore {
    var todayTransactions: Option<seq<Tx>>
    var transactionArchive: Option<seq<DayEntry>>
    var lastSavedDate: Option<Date>

    /** The working list as script.js:123 reads it. */
    function Working(): seq<Tx>
      reads this
    {
      ReadOrEmpty(todayTransactions)
    }

    /** The archive, absent read as empty. */
    function Archive(): seq<DayEntry>
      reads this
    {
      ReadOrEmpty(transactionArchive)
    }

    /** The condition of script.js:59: a marker is stored and it names another day. */
    predicate Stale(today: Date)
      reads this
    {
      lastSavedDate.Some? && lastSavedDate.value != today
    }

    /** Every archived entry carries the totals of its own records. */
    predicate ArchiveConsistent()
      reads this
    {
      forall e :: e in Archive() ==> EntryConsistent(e)
    }

    /** The store as earlier page loads left it. */
    constructor (todayTx: Option<seq<Tx>>, archive: Option<seq<DayEntry>>, marker: Option<Date>)
      ensures todayTransactions == todayTx && transactionArchive == archive && lastSavedDate == marker
    {
      todayTransactions, transactionArchive, lastSavedDate := todayTx, archive, marker;
    }

    /** script.js:20-28: create each absent key (an empty list, an empty archive, today). */
    method Init(today: Date)
      modifies this
      ensures todayTransactions == if old(todayTransactions).None? then Some([]) else old(todayTransactions)
      ensures transactionArchive == if old(transactionArchive).None? then Some([]) else old(transactionArchive)
      ensures lastSavedDate == if old(lastSavedDate).None? then Some(today) else old(lastSavedDate)
      ensures Working() == old(Working()) && Archive() == old(Archive())
      ensures ArchiveConsistent() == old(ArchiveConsistent())
    {
      if todayTransactions.None? {
        todayTransactions := Some([]);
      }
      if transactionArchive.None? {
        transactionArchive := Some([]);
      }
      if lastSavedDate.None? {
        lastSavedDate := Some(today);
      }
    }

    /** script.js:71-88: a non-empty working list becomes one entry at the end of the archive,
        labelled with `today` (script.js:76), the day the rollover runs; an empty list returns early. */
    method ArchiveTransactions(today: Date)
      modifies this`transactionArchive
      ensures old(Working()) == [] ==> transactionArchive == old(transactionArchive)
      ensures old(Working()) != [] ==>
        transactionArchive == Some(old(Archive()) + [MakeDayEntry(today, old(Working()))])
      ensures old(Archive()) <= Archive()
      ensures old(ArchiveConsistent()) ==> ArchiveConsistent()
    {
      var ts := ReadOrEmpty(todayTransactions);
      if |ts| == 0 {
        return;
      }
      var archive := ReadOrEmpty(transactionArchive);
      var entry := MakeDayEntry(today, ts);
      archive := archive + [entry];
      transactionArchive := Some(archive);
    }

    /** script.js:55-68: on a stale marker archive the day and remove the working list;
        in every case the marker becomes today. */
    method CheckNewDay(today: Date)
      modifies this
      ensures lastSavedDate == Some(today)
      ensures !old(Stale(today)) ==>
        todayTransactions == old(todayTransactions) && transactionArchive == old(transactionArchive)
      ensures old(Stale(today)) ==> todayTransactions == None && Working() == []
      ensures old(Stale(today)) && old(Working()) != [] ==>
        transactionArchive == Some(old(Archive()) + [MakeDayEntry(today, old(Working()))])
      ensures old(Stale(today)) && old(Working()) == [] ==> transactionArchive == old(transactionArchive)
      ensures old(Archive()) <= Archive()
      ensures old(ArchiveConsistent()) ==> ArchiveConsistent()
    {
      if lastSavedDate.Some? && lastSavedDate.value != today {
        ArchiveTransactions(today);
        todayTransactions := None;
      }
      lastSavedDate := Some(today);
    }

    /** A page load: the init block followed by checkNewDay (script.js:20-31). */
    method Load(today: Date)
      modifies this
      ensures lastSavedDate == Some(today) && transactionArchive.Some?
      ensures old(Stale(today)) ==> todayTransactions == None
      ensures !old(Stale(today)) ==> todayTransactions == Some(old(Working()))
      ensures Archive() == if old(Stale(today)) && old(Working()) != []
                           then old(Archive()) + [MakeDayEntry(today, old(Working()))]
                           else old(Archive())
      ensures old(ArchiveConsistent()) ==> ArchiveConsistent()
    {
      Init(today);
      CheckNewDay(today);
    }

    /** The store part of addTransaction (script.js:99-110), reading an absent list as empty.
        The record's id (`Date.now()`) and its fields come in as parameters. */
    method AddTransaction(id: int, kind: TxType, amount: int, description: string, date: Date)
      modifies this`todayTransactions
      ensures todayTransactions == Some(old(Working()) + [Tx(id, kind, amount, description, date)])
      ensures transactionArchive == old(transactionArchive) && lastSavedDate == old(lastSavedDate)
    {
      var transactions := ReadOrEmpty(todayTransactions);
      transactions := transactions + [Tx(id, kind, amount, description, date)];
      todayTransactions := Some(transactions);
    }

    /** addTransaction as written: `JSON.parse(v || [])` at script.js:108 throws on an absent key,
        so nothing is stored (`ok` false). */
    method AddTransactionAsWritten(id: int, kind: TxType, amount: int, description: string, date: Date)
      returns (ok: bool)
      modifies this`todayTransactions
      ensures ok <==> old(todayTransactions).Some?
      ensures ok ==> todayTransactions == Some(old(todayTransactions).value + [Tx(id, kind, amount, description, date)])
      ensures !ok ==> todayTransactions == old(todayTransactions)
    {
      if todayTransactions.None? {
        return false;
      }
      var transactions := todayTransactions.value;
      transactions := transactions + [Tx(id, kind, amount, description, date)];
      todayTransactions := Some(transactions);
      ok := true;
    }

    /** deleteTransaction (script.js:167-170): keep exactly the records whose id differs. */
    method DeleteTransaction(id: int)
      modifies this`todayTransactions
      ensures todayTransactions == Some(WithoutId(old(Working()), id))
      ensures (forall t :: t in old(Working()) ==> t.id != id) ==> Working() == old(Working())
      ensures transactionArchive == old(transactionArchive) && lastSavedDate == old(lastSavedDate)
    {
      var transactions := ReadOrEmpty(todayTransactions);
      transactions := WithoutId(transactions, id);
      todayTransactions := Some(transactions);
      if forall t :: t in old(Working()) ==> t.id != id {
        WithoutIdMissing(old(Working()), id);
      }
    }
  }

  /** Running the rollover check a second time on the same day changes nothing. */
  method CheckNewDayTwice(s: LedgerStore, today: Date)
    returns (working: Option<seq<Tx>>, archive: Option<seq<DayEntry>>)
    modifies s
    ensures working == s.todayTransactions && archive == s.transactionArchive
    ensures s.lastSavedDate == Some(today)
    ensures s.Archive() == old(s.Archive()) ||
            s.Archive() == old(s.Archive()) + [MakeDayEntry(today, old(s.Working()))]
  {
    s.CheckNewDay(today);
    working, archive := s.todayTransactions, s.transactionArchive;
    s.CheckNewDay(today);
  }

  /** Adding a record with a fresh id and deleting it again restores the working list. */
  method AddThenDeleteRestores(s: LedgerStore, id: int, kind: TxType, amount: int, description: string, date: Date)
    requires forall t :: t in s.Working() ==> t.id != id
    modifies s
    ensures s.Working() == old(s.Working())
    ensures s.transactionArchive == old(s.transactionArchive) && s.lastSavedDate == old(s.lastSavedDate)
  {
    s.AddTransaction(id, kind, amount, description, date);
    s.DeleteTransaction(id);
    AddThenDelete(old(s.Working()), Tx(id, kind, amount, description, date));
  }

  /** A day with 5000 income and 2000 expense, opened again the next day: the archive holds exactly
      one entry with those totals, labelled with the next day, the working list is gone and the
      marker names the next day. */
  method RolloverScenario() returns (archive: seq<DayEntry>, working: Option<seq<Tx>>, marker: Option<Date>)
    ensures archive == [DayEntry(Date(2, 6, 2025),
                                 [Tx(1, Income, 5000, "nasi", Date(1, 6, 2025)), Tx(2, Expense, 2000, "gas", Date(1, 6, 2025))],
                                 5000, 2000, 3000)]
    ensures working == None && marker == Some(Date(2, 6, 2025))
  {
    var d1, d2 := Date(1, 6, 2025), Date(2, 6, 2025);
    var sale, cost := Tx(1, Income, 5000, "nasi", d1), Tx(2, Expense, 2000, "gas", d1);
    var s := new LedgerStore(Some([sale, cost]), Some([]), Some(d1));
    s.Load(d2);
    assert [] + [MakeDayEntry(d2, [sale, cost])] == [MakeDayEntry(d2, [sale, cost])];
    assert OfType([sale, cost], Income) == [sale];
    assert OfType([sale, cost], Expense) == [cost];
    archive, working, marker := s.Archive(), s.todayTransactions, s.lastSavedDate;
  }

  /** The defect in AddTransactionAsWritten: on a page load whose stored marker names another day
      the rollover removes the working list, so the first submitted record is lost. */
  method NewDayAddAsWritten(s: LedgerStore, today: Date, id: int, amount: int) returns (ok: bool)
    requires s.Stale(today)
    modifies s
    ensures !ok
    ensures s.todayTransactions == None
  {
    s.Load(today);
    ok := s.AddTransactionAsWritten(id, Income, amount, "", today);
  }

  /** The same sequence with the corrected add: the record is stored as the only one of the day. */
  method NewDayAdd(s: LedgerStore, today: Date, id: int, amount: int)
    requires s.Stale(today)
    modifies s
    ensures s.Working() == [Tx(id, Income, amount, "", today)]
  {
    s.Load(today);
    s.AddTransaction(id, Income, amount, "", today);
  }
}
