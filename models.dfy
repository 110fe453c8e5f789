/**
 * The records of backend/models.py: a cash-book transaction, its JSON
 * rendering (`to_dict`), and the initial contents of the two in-memory
 * tables `users_db` and `transactions_db`.
 */
module Models {
  import opened Wrappers

  /** A point in time as a Python `datetime` holds it. */
  datatype DateTime = DateTime(year: int, month: int, day: int,
                               hour: int, minute: int, second: int, microsecond: int)

  /**
   * One cash-book entry. `kind` is the field the source calls `type`
   * ('IN' or 'OUT' by convention; nothing in the backend enforces it).
   */
  datatype Transaction = Transaction(
    transactionId: string,
    userId: string,
    kind: string,
    amount: real,
    category: string,
    remark: string,
    bankCash: string,
    date: DateTime)

  /**
   * `Transaction.__init__`: every argument lands unchanged in the field of
   * the same name; a missing date is replaced by the current time `now`.
   */
  function NewTransaction(transactionId: string, userId: string, kind: string, amount: real,
                          category: string, remark: string, bankCash: string,
                          date: Option<DateTime>, now: DateTime): (t: Transaction)
    ensures t.transactionId == transactionId && t.userId == userId && t.kind == kind
    ensures t.amount == amount && t.category == category
    ensures t.remark == remark && t.bankCash == bankCash
    ensures date.Some? ==> t.date == date.value
    ensures date.None? ==> t.date == now
  {
    Transaction(transactionId, userId, kind, amount, category, remark, bankCash,
                if date.Some? then date.value else now)
  }

  /** The JSON values a rendered transaction holds. */
  datatype JsonValue = JString(text: string) | JNumber(number: real)

  /** The keys of a rendered transaction. */
  const TransactionKeys: set<string> :=
    {"transaction_id", "user_id", "type", "amount", "category", "remark", "bank_cash", "date"}

  /**
   * `Transaction.to_dict`: one key per field, each holding that field's value;
   * the date is rendered by `isoformat`.
   */
  function ToDict(t: Transaction, isoformat: DateTime -> string): (d: map<string, JsonValue>)
    ensures d.Keys == TransactionKeys
    ensures d["transaction_id"] == JString(t.transactionId)
    ensures d["user_id"] == JString(t.userId)
    ensures d["type"] == JString(t.kind)
    ensures d["amount"] == JNumber(t.amount)
    ensures d["category"] == JString(t.category)
    ensures d["remark"] == JString(t.remark)
    ensures d["bank_cash"] == JString(t.bankCash)
    ensures d["date"] == JString(isoformat(t.date))
  {
    map[
      "transaction_id" := JString(t.transactionId),
      "user_id" := JString(t.userId),
      "type" := JString(t.kind),
      "amount" := JNumber(t.amount),
      "category" := JString(t.category),
      "remark" := JString(t.remark),
      "bank_cash" := JString(t.bankCash),
      "date" := JString(isoformat(t.date))
    ]
  }

  /** A rendered transaction has exactly eight keys. */
  lemma TransactionKeysCount()
    ensures |TransactionKeys| == 8
  {
  }

  /**
   * Rendering loses nothing: when dates render injectively, two transactions
   * with the same dictionary are the same transaction.
   */
  lemma ToDictInjective(a: Transaction, b: Transaction, isoformat: DateTime -> string)
    requires forall x, y :: isoformat(x) == isoformat(y) ==> x == y
    requires ToDict(a, isoformat) == ToDict(b, isoformat)
    ensures a == b
  {
  }

  /** An entry of the user table. */
  datatype UserRecord = UserRecord(password: string, userId: string)

  /** `users_db`: one account, "ZIYAD", whose user id is its own name. */
  function InitialUsers(): (users: map<string, UserRecord>)
    ensures users.Keys == {"ZIYAD"}
    ensures forall name :: name in users ==> users[name].userId == name
  {
    map["ZIYAD" := UserRecord("Admin123", "ZIYAD")]
  }
}
