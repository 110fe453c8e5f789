# Cash-book backend ledger, modelled in Dafny

The backend of this cash-book application keeps every user's income and
expense entries in one in-memory list. Request handlers list the caller's
entries, append a new one, delete one by id, and compute a cash summary:
money in, money out, the balance, and a per-category in/out breakdown.
Logging in checks a username and password against a small in-memory user
table. The configuration rewrites a legacy `postgres://` database URL so it
names the psycopg driver.

Modules, one per source file or concern:

- `Wrappers` (`wrappers.dfy`): `Option` and `Result`.
- `Models` (`models.dfy`): the `Transaction` record, its constructor, its
  `to_dict` rendering and the initial user table.
- `Auth` (`auth.dfy`): `authenticate_user`.
- `Config` (`config.dfy`): the `DATABASE_URL` rewrite, with Python's
  `str.replace(old, new, 1)` written out.
- `Ledger` (`ledger.dfy`): the value-level meaning of the handlers in
  `backend/app.py`. It covers the caller's view of the store, the entry a
  delete removes, and the summary with its category breakdown. It also holds
  the lemmas that characterise them.
- `App` (`app.dfy`): the login check, the construction of a record from a
  request body, and the class `Store`. `Store` holds the transaction list as
  a `seq` field. Add and delete are methods that update it in place. Listing
  is a function. The summary is a loop-based method proved equal to
  `Ledger.SummaryOf`.

`Transaction` is a datatype, not a class. Its fields are assigned only in
`__init__` and never updated afterwards, so a value models it faithfully.
The source's field `type` is called `kind`, because `type` is a Dafny keyword.

The handlers take these as parameters:

- the caller's identity, which the source reads from the access token;
- the request body;
- the fresh id that `uuid.uuid4()` would produce;
- the current time that `datetime.now()` would give;
- the `isoformat` rendering of a date.

A request body is `None` when it is not a JSON object. A field is `None`
when its key is missing. The outcome of `float(data['amount'])` is given as
`Numeric(v)` or `NotNumeric`.

## Model

| member | source | states |
|---|---|---|
| `Models.NewTransaction` | backend/models.py:20-28 | each argument is stored unchanged in the field of the same name; a supplied date is kept, a missing one becomes the current time |
| `Models.ToDict` | backend/models.py:30-40 | the rendering has exactly the eight keys of a transaction, each holding its field's value, with the date passed through `isoformat`; the record itself is a value and cannot change |
| `Models.TransactionKeysCount` | backend/models.py:31-40 | the rendered dictionary has exactly eight keys |
| `Models.ToDictInjective` | backend/models.py:30-40 | when dates render injectively, equal renderings come from equal transactions, so the rendering loses no field |
| `Models.InitialUsers` | backend/models.py:10-15 | the initial user table has the single key "ZIYAD", and every entry's user id equals its key |
| `App.Store.constructor` | backend/models.py:17 | the transaction store starts empty |
| `Auth.Authenticate` | backend/auth.py:10-15 | an unknown username yields no token; a known one with a different password yields no token; a known one with an exactly equal password yields a token issued for that username |
| `Auth.CredentialsAreCaseSensitive` | backend/auth.py:12-13 | the username lookup and the password comparison are exact, so "admin123" and "ziyad" are rejected where "Admin123" and "ZIYAD" succeed |
| `App.Login` | backend/app.py:25-45 | a body that is not an object gives 500; a missing or empty username or password gives 400 without authenticating; a token gives 200 carrying that username; no token gives 401 |
| `App.InitialAccountLogin` | backend/app.py:31-42 | against the initial table, the right password logs in as ZIYAD, a wrongly cased one gets 401 and an empty one 400 |
| `Config.ReplaceFirstAtFirstOccurrence` | backend/config.py:16 | `Config.ReplaceFirst`, the model of `replace(pat, rep, 1)`, replaces the first occurrence and keeps everything before and after it unchanged, later occurrences included |
| `Config.ReplaceFirstWithoutOccurrence` | backend/config.py:16 | a string without an occurrence of the pattern is left unchanged |
| `Config.NormalizeDatabaseUrl` | backend/config.py:15-16 | a URL starting with `postgres://` becomes `postgresql+psycopg://` followed by the unchanged remainder; anything else, absent or empty included, is unchanged; the output never starts with `postgres://` |
| `Config.NormalizeIdempotent` | backend/config.py:15-16 | applying the rewrite twice equals applying it once |
| `Config.ReplacesOnlyLeadingScheme` | backend/config.py:16 | with count 1, a later `postgres://` inside the URL is kept |
| `Config.DatabaseUri` | backend/config.py:12-19 | the SQLAlchemy URI is absent when `DATABASE_URL` is unset; otherwise it is the variable's value, with only a leading `postgres://` rewritten |
| `Ledger.UserTransactions` | backend/app.py:53 | the caller's listing is no longer than the store, and every listed entry belongs to the caller |
| `Ledger.UserTransactionsMembers` | backend/app.py:53 | an entry is listed exactly when it is in the store and has the caller's user id |
| `Ledger.UserTransactionsInStoreOrder` | backend/app.py:53 | the listing is a subsequence of the store, so store order is kept |
| `Ledger.UserTransactionsComplete` | backend/app.py:53 | each of the caller's entries is listed as many times as it is stored, and other users' entries not at all |
| `Ledger.UserTransactionsAppend` | backend/app.py:103 | filtering the concatenation of two stores is the concatenation of the two filtered stores |
| `Ledger.UserTransactionsSkip` | backend/app.py:103 | another user's entry, wherever it sits, contributes nothing to the caller's listing |
| `App.Store.ListTransactions` | backend/app.py:50-54 | the reply holds one rendered dictionary per entry of the caller's listing, in the same order |
| `App.BuildTransaction` | backend/app.py:65-73 | a record is built exactly when the body is an object holding every field with a numeric amount; it is owned by the caller, carries the fresh id, the request's fields and the current time; a body that is not an object, a missing `type` or a non-numeric amount yields that error |
| `App.Store.AddTransaction` | backend/app.py:60-79 | a complete request appends exactly that record at the end and replies 201; any failure leaves the store unchanged and replies 500 |
| `Ledger.FirstMatch` | backend/app.py:88-89 | identifies the first index whose entry has both the given id and the caller's user id, with no match before it, or reports that no entry matches |
| `Ledger.WithoutFirstMatch` | backend/app.py:88-93 | with a match, exactly that entry is removed: one entry shorter, the removed entry is the only multiset difference, entries before and after it keep their order; without a match, the store is unchanged |
| `App.Store.DeleteTransaction` | backend/app.py:83-93 | the scan in store order removes the first entry matching both the id and the caller and replies 200; otherwise the store is unchanged and the reply is 404, even when another user's entry has that id |
| `Ledger.DeleteKeepsOtherUsers` | backend/app.py:88-91 | a delete by one user leaves every other user's listing unchanged |
| `Ledger.DeleteUndoesAdd` | backend/app.py:75-90 | deleting, as its owner, an entry just appended under a fresh id restores the earlier store |
| `Ledger.CategoriesKeys` | backend/app.py:110-113 | the breakdown has exactly one key per distinct category among the entries |
| `Ledger.CategoryEntry` | backend/app.py:110-117 | in the dictionary that `Ledger.Categories` builds by one `Ledger.Tally` pass per entry (the category loop), each category's 'in' is the total of its 'IN' amounts; its 'out' is the total of its amounts of every other type |
| `Ledger.CategoryOrder` | backend/app.py:111-113 | the breakdown's keys in insertion order contain no duplicates |
| `Ledger.CategoryOrderKeys` | backend/app.py:111-113 | the ordered keys are exactly the breakdown's keys |
| `Ledger.CategoryTotals` | backend/app.py:110-117 | summing 'in' over all keys gives the total of 'IN' amounts; summing 'out' gives the total of all other amounts |
| `Ledger.OutflowIsCashOut` | backend/app.py:106-117 | when every type is 'IN' or 'OUT', the non-'IN' total equals the 'OUT' total |
| `Ledger.OutflowCountsOtherTypes` | backend/app.py:114-117 | a type other than 'IN' or 'OUT' is counted under 'out' but left out of `cash_out` |
| `Ledger.SummaryOf` | backend/app.py:103-117 | money in and money out are the generator sums `Ledger.SumIn` and `Ledger.SumOfKind(_, "OUT")` over the caller's entries; the balance is money in minus money out; the breakdown's keys are exactly the caller's categories |
| `Ledger.SummaryIgnoresOtherUsers` | backend/app.py:103-107 | inserting another user's entry anywhere in the store changes none of the caller's summary |
| `Ledger.SummaryBreakdownTotals` | backend/app.py:105-117 | the breakdown's 'in' column sums to `cash_in`; its 'out' column sums to `cash_out` when all the caller's types are 'IN' or 'OUT' |
| `Ledger.SummaryAfterAdd` | backend/app.py:105-117 | appending one of the caller's entries adds its amount to `cash_in` or `cash_out` according to its type, and updates the breakdown by one more loop pass |
| `App.Store.GetSummary` | backend/app.py:100-124 | the loop over the caller's entries builds exactly the breakdown of `Ledger.SummaryOf`; the reply is 200 with that summary |

## Left out

- HTTP routing, JSON request parsing and response serialisation, CORS and the
  `jwt_required` / `get_jwt_identity` machinery. The caller's identity and the
  request body are parameters; a reply is a status and a value.
- Access-token issuance (`create_access_token`): a token is modelled as
  `AccessToken(identity)`, with no encoding, signature or expiry.
- `uuid.uuid4()`, `datetime.now()` and `datetime.isoformat()` are external:
  they enter as parameters.
- Floating point: `float(...)` parsing is given as its outcome, and amounts
  are exact reals, so rounding in sums is not modelled.
- Field values of other JSON types (a number given as a category, a
  non-string type) are not modelled; fields are strings.
- The error text `str(e)` of a 500 reply is not modelled; only the kind of error is.
- The `except` branches of the list, delete and summary handlers: no
  operation in the model raises there.
- The key order of JSON replies: `jsonify` sorts keys. The breakdown is a
  `map`; its insertion order is `Ledger.CategoryOrder`.
- The home route and the `__main__` server start-up.
- `Config`'s secret keys, token expiry and other constants: they are plain
  environment reads with defaults.
- `backend/extensions.py` only constructs library objects.
- Sequential requests only: the source mutates a global list from request
  handlers, and concurrent access to it is not modelled.
- The frontend (`frontend/`): DOM code, `fetch`, local storage, charts,
  display rounding and the CSV export.
- The dashboard endpoint and its keyword bucketing (lending, asset and
  expense buckets): the frontend calls `/api/dashboard`, but the backend
  defines no such route; the model covers only `get_summary`.
