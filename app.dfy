/**
 * The request handlers of backend/app.py over one in-memory store. The
 * caller's identity (from the access token), the request body, the fresh
 * transaction id and the current time are parameters; a reply is its HTTP
 * status with the value it carries.
 */
module App {
  import opened Wrappers
  import opened Models
  import opened Auth
  import opened Ledger

  // ---------------------------------------------------------------------
  // POST /api/login
  // ---------------------------------------------------------------------

  /** The fields of a login body; `None` is a missing key. */
  datatype LoginRequest = LoginRequest(username: Option<string>, password: Option<string>)

  datatype LoginReply =
    | LoggedIn(token: Token, username: string)
    | MissingCredentials
    | InvalidCredentials
    | LoginFailed
  {
    function Status(): int {
      match this
      case LoggedIn(_, _) => 200
      case MissingCredentials => 400
      case InvalidCredentials => 401
      case LoginFailed => 500
    }
  }

  /** Python truthiness of an optional string: present and non-empty. */
  predicate Given(field: Option<string>) {
    field.Some? && field.value != ""
  }

  /**
   * `login`: a body that is not a JSON object fails (500); a missing or empty
   * username or password is refused (400) before the table is consulted;
   * otherwise the credentials either yield a token for that username (200)
   * or are rejected (401).
   */
  function Login(users: map<string, UserRecord>, body: Option<LoginRequest>): (r: LoginReply)
    ensures body.None? ==> r == LoginFailed
    ensures body.Some? && !(Given(body.value.username) && Given(body.value.password)) ==>
              r == MissingCredentials
    ensures r.LoggedIn? <==>
              body.Some? && Given(body.value.username) && Given(body.value.password)
              && body.value.username.value in users
              && users[body.value.username.value].password == body.value.password.value
    ensures r.LoggedIn? ==> r.username == body.value.username.value && r.token.identity == r.username
    ensures r.Status() == 401 <==>
              body.Some? && Given(body.value.username) && Given(body.value.password)
              && Authenticate(users, body.value.username.value, body.value.password.value).None?
  {
    if body.None? then LoginFailed
    else if !Given(body.value.username) || !Given(body.value.password) then MissingCredentials
    else
      var name := body.value.username.value;
      match Authenticate(users, name, body.value.password.value)
      case Some(token) => LoggedIn(token, name)
      case None => InvalidCredentials
  }

  /** The one account of the initial table logs in with its password, and with nothing else. */
  lemma InitialAccountLogin()
    ensures Login(InitialUsers(), Some(LoginRequest(Some("ZIYAD"), Some("Admin123"))))
         == LoggedIn(AccessToken("ZIYAD"), "ZIYAD")
    ensures Login(InitialUsers(), Some(LoginRequest(Some("ZIYAD"), Some("admin123")))).Status() == 401
    ensures Login(InitialUsers(), Some(LoginRequest(Some("ZIYAD"), Some("")))).Status() == 400
  {
  }

  // ---------------------------------------------------------------------
  // POST /api/transactions
  // ---------------------------------------------------------------------

  /** What `float(data['amount'])` makes of the amount field. */
  datatype AmountField = Numeric(value: real) | NotNumeric

  /** The fields of a new-transaction body; `None` is a missing key. */
  datatype AddRequest = AddRequest(
    kind: Option<string>,
    amount: Option<AmountField>,
    category: Option<string>,
    remark: Option<string>,
    bankCash: Option<string>)

  /** Why building the record raised. */
  datatype AddError = NotAnObject | MissingField(name: string) | AmountNotNumeric

  /** Every field is present and the amount converts to a number. */
  predicate Complete(req: AddRequest) {
    && req.kind.Some? && req.amount.Some? && req.amount.value.Numeric?
    && req.category.Some? && req.remark.Some? && req.bankCash.Some?
  }

  /**
   * The `Transaction(...)` call of `add_transaction`, its arguments read in
   * the order written (type, amount, category, remark, bank_cash): the first
   * that raises gives the error.
   */
  function BuildTransaction(caller: string, newId: string, body: Option<AddRequest>, now: DateTime)
    : (r: Result<Transaction, AddError>)
    ensures r.Ok? <==> body.Some? && Complete(body.value)
    ensures r.Ok? ==>
              && r.value.transactionId == newId && r.value.userId == caller
              && r.value.kind == body.value.kind.value
              && r.value.amount == body.value.amount.value.value
              && r.value.category == body.value.category.value
              && r.value.remark == body.value.remark.value
              && r.value.bankCash == body.value.bankCash.value
              && r.value.date == now
    ensures body.None? ==> r == Err(NotAnObject)
    ensures body.Some? && body.value.kind.None? ==> r == Err(MissingField("type"))
    ensures r == Err(AmountNotNumeric) <==>
              body.Some? && body.value.kind.Some? && body.value.amount == Some(NotNumeric)
  {
    if body.None? then Err(NotAnObject)
    else
      var req := body.value;
      if req.kind.None? then Err(MissingField("type"))
      else if req.amount.None? then Err(MissingField("amount"))
      else if req.amount.value.NotNumeric? then Err(AmountNotNumeric)
      else if req.category.None? then Err(MissingField("category"))
      else if req.remark.None? then Err(MissingField("remark"))
      else if req.bankCash.None? then Err(MissingField("bank_cash"))
      else Ok(NewTransaction(newId, caller, req.kind.value, req.amount.value.value,
                             req.category.value, req.remark.value, req.bankCash.value, None, now))
  }

  datatype AddReply = Added(transaction: Transaction) | AddFailed(error: AddError) {
    function Status(): int {
      if Added? then 201 else 500
    }
  }

  // ---------------------------------------------------------------------
  // The store and its handlers
  // ---------------------------------------------------------------------

  /** `transactions_db`, the one list every handler reads and updates. */
  class Store {
    var transactions: seq<Transaction>

    /** The store starts empty. */
    constructor ()
      ensures transactions == []
    {
      transactions := [];
    }

    /**
     * GET /api/transactions: the caller's entries, rendered, in store order.
     * The reply is always 200: nothing in the model raises here, so the
     * handler's 500 branch cannot be reached and no status is returned.
     */
    function ListTransactions(caller: string, isoformat: DateTime -> string): (r: seq<map<string, JsonValue>>)
      reads this
      ensures |r| == |UserTransactions(transactions, caller)|
      ensures forall i :: 0 <= i < |r| ==>
                r[i] == ToDict(UserTransactions(transactions, caller)[i], isoformat)
    {
      var mine := UserTransactions(transactions, caller);
      seq(|mine|, i requires 0 <= i < |mine| => ToDict(mine[i], isoformat))
    }

    /**
     * POST /api/transactions: a complete request appends exactly one record,
     * owned by the caller, at the end (201); otherwise nothing changes (500).
     */
    method AddTransaction(caller: string, newId: string, body: Option<AddRequest>, now: DateTime)
      returns (reply: AddReply)
      modifies this
      ensures BuildTransaction(caller, newId, body, now).Ok? ==>
                reply == Added(BuildTransaction(caller, newId, body, now).value)
                && transactions == old(transactions) + [reply.transaction]
      ensures BuildTransaction(caller, newId, body, now).Err? ==>
                reply == AddFailed(BuildTransaction(caller, newId, body, now).error)
                && transactions == old(transactions)
    {
      match BuildTransaction(caller, newId, body, now)
      case Ok(t) =>
        transactions := transactions + [t];
        reply := Added(t);
      case Err(e) =>
        reply := AddFailed(e);
    }

    /**
     * DELETE /api/transactions/<id>: scans the store in order and removes the
     * first entry with that id owned by the caller (200); without one the
     * store is unchanged (404).
     */
    method DeleteTransaction(caller: string, transactionId: string) returns (status: int)
      modifies this
      ensures transactions == WithoutFirstMatch(old(transactions), transactionId, caller)
      ensures status == if FirstMatch(old(transactions), transactionId, caller).Some? then 200 else 404
    {
      var i := 0;
      while i < |transactions|
        invariant 0 <= i <= |transactions|
        invariant transactions == old(transactions)
        invariant forall j :: 0 <= j < i ==> !IsMatch(transactions[j], transactionId, caller)
      {
        var t := transactions[i];
        if t.transactionId == transactionId && t.userId == caller {
          assert FirstMatch(transactions, transactionId, caller) == Some(i);
          transactions := transactions[..i] + transactions[i + 1..];
          return 200;
        }
        i := i + 1;
      }
      return 404;
    }

    /**
     * GET /api/summary (status 200): the caller's money in, money out and
     * balance, and the per-category breakdown built by one pass over the
     * caller's entries.
     */
    method GetSummary(caller: string) returns (status: int, summary: Summary)
      ensures status == 200
      ensures summary == SummaryOf(transactions, caller)
    {
      var mine := UserTransactions(transactions, caller);
      var cashIn := SumIn(mine);
      var cashOut := SumOfKind(mine, "OUT");
      var categories: map<string, Breakdown> := map[];
      for i := 0 to |mine|
        invariant categories == Categories(mine[..i])
      {
        var t := mine[i];
        if t.category !in categories {
          categories := categories[t.category := Breakdown(0.0, 0.0)];
        }
        if t.kind == "IN" {
          categories := categories[t.category := categories[t.category].(inflow := categories[t.category].inflow + t.amount)];
        } else {
          categories := categories[t.category := categories[t.category].(outflow := categories[t.category].outflow + t.amount)];
        }
        assert mine[..i + 1][..i] == mine[..i];
      }
      assert mine[..|mine|] == mine;
      status, summary := 200, Summary(cashIn, cashOut, cashIn - cashOut, categories);
    }
  }
}
