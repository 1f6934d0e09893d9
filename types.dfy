/** The records the ledger keeps in browser-local storage (script.js:79-85, 99-105). */
module LedgerTypes {

  /** A stored key that may be absent (localStorage.getItem returns null). */
  datatype Option<+T> = None | Some(value: T)

  /** A calendar day. It stands for the `toDateString()` marker and the
      `formatDate` label of an archive entry; both are compared as whole days. */
  datatype Date = Date(day: int, month: int, year: int)

  /** The `type` field of a record: 'income' (Uang Masuk) or 'expense' (Uang Keluar). */
  datatype TxType = Income | Expense

  /** One ledger record. `kind` is the source's `type`; `amount` is in whole Rupiah
      and is not checked to be non-negative, as the source does not check it. */
  datatype Tx = Tx(id: int, kind: TxType, amount: int, description: string, date: Date)

  /** One archived day: the records of that day and the totals computed when it was archived. */
  datatype DayEntry = DayEntry(date: Date, transactions: seq<Tx>, totalIncome: int, totalExpense: int, balance: int)
}
