/** The rows the analyzer reads from its five record stores.

    Each store is one single-row-per-user table; `fetchone` on a query
    `WHERE user_id = ...` is modelled as a lookup in a map keyed by the
    user identifier, giving `None` when no row exists. Nothing is ever
    written to a store by the analyzer, so a `Store` is a read-only
    snapshot taken for one render. */
module Records {

  datatype Option<T> = None | Some(value: T)

  /** `users_db.users`: name and email of a user. */
  datatype UserInfo = UserInfo(name: string, email: string)

  /** `payments_db.payment_records`: on-time and total payment counts. */
  datatype PaymentRecord = PaymentRecord(onTime: int, total: int)

  /** `debt_db.debt_info`: used credit and credit limit (money, read as decimals). */
  datatype DebtRecord = DebtRecord(used: real, limit: real)

  /** A calendar date; only `year` takes part in any score. */
  datatype Date = Date(year: int, month: int, day: int)

  /** `history_db.history_info`: the date the account was opened. */
  datatype HistoryRecord = HistoryRecord(accountStart: Date)

  /** `mix_reference_db.credit_mix`: credit types used and types tracked. */
  datatype MixRecord = MixRecord(typesUsed: int, totalTypes: int)

  /** The five stores, each keyed by user identifier. */
  datatype Store = Store(
    users: map<int, UserInfo>,
    payments: map<int, PaymentRecord>,
    debts: map<int, DebtRecord>,
    histories: map<int, HistoryRecord>,
    mixes: map<int, MixRecord>)

  /** The row a single-row lookup by `userId` returns, if any. */
  function Fetch<T>(table: map<int, T>, userId: int): (row: Option<T>)
    ensures row == None <==> userId !in table
    ensures row.Some? ==> userId in table && row.value == table[userId]
  {
    if userId in table then Some(table[userId]) else None
  }

  /** All four rows the composite score indexes are present for `userId`. */
  predicate HasScoringRows(store: Store, userId: int) {
    && userId in store.payments
    && userId in store.debts
    && userId in store.histories
    && userId in store.mixes
  }
}
