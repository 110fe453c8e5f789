/**
 * The value-level rules behind the transaction handlers of backend/app.py:
 * which entries a caller sees, which entry a delete removes, and the cash
 * summary with its per-category breakdown. The store that the handlers
 * update in place is the class in app.dfy; these functions specify it.
 */
module Ledger {
  import opened Wrappers
  import opened Models

  // ---------------------------------------------------------------------
  // The caller's entries
  // ---------------------------------------------------------------------

  /** `[t for t in transactions_db if t.user_id == current_user]`. */
  function UserTransactions(s: seq<Transaction>, user: string): (r: seq<Transaction>)
    ensures |r| <= |s|
    ensures forall i :: 0 <= i < |r| ==> r[i].userId == user
  {
    if s == [] then []
    else UserTransactions(s[..|s| - 1], user) + (if s[|s| - 1].userId == user then [s[|s| - 1]] else [])
  }

  /** An entry is listed exactly when it is stored and belongs to `user`. */
  lemma {:induction false} UserTransactionsMembers(s: seq<Transaction>, user: string)
    ensures forall t :: t in UserTransactions(s, user) <==> t in s && t.userId == user
    decreases |s|
  {
    if s != [] {
      var p := s[..|s| - 1];
      assert s == p + [s[|s| - 1]];
      UserTransactionsMembers(p, user);
    }
  }

  /** Filtering distributes over concatenation. */
  lemma {:induction false} UserTransactionsAppend(a: seq<Transaction>, b: seq<Transaction>, user: string)
    ensures UserTransactions(a + b, user) == UserTransactions(a, user) + UserTransactions(b, user)
    decreases |b|
  {
    if b == [] {
      assert a + b == a;
    } else {
      var b' := b[..|b| - 1];
      assert (a + b)[..|a + b| - 1] == a + b';
      assert (a + b)[|a + b| - 1] == b[|b| - 1];
      UserTransactionsAppend(a, b', user);
    }
  }

  /** Another user's entry contributes nothing to a user's listing. */
  lemma UserTransactionsSkip(a: seq<Transaction>, t: Transaction, b: seq<Transaction>, user: string)
    requires t.userId != user
    ensures UserTransactions(a + [t] + b, user) == UserTransactions(a + b, user)
  {
    UserTransactionsAppend(a + [t], b, user);
    UserTransactionsAppend(a, [t], user);
    UserTransactionsAppend(a, b, user);
    assert [t][..0] == [];
  }

  /** `a` is `b` with some entries left out, the rest in their original order. */
  ghost predicate IsSubsequence(a: seq<Transaction>, b: seq<Transaction>)
    decreases |b|
  {
    if a == [] then true
    else if b == [] then false
    else (a[|a| - 1] == b[|b| - 1] && IsSubsequence(a[..|a| - 1], b[..|b| - 1]))
         || IsSubsequence(a, b[..|b| - 1])
  }

  /** The caller's listing keeps store order. */
  lemma {:induction false} UserTransactionsInStoreOrder(s: seq<Transaction>, user: string)
    ensures IsSubsequence(UserTransactions(s, user), s)
    decreases |s|
  {
    if s != [] {
      var p := s[..|s| - 1];
      UserTransactionsInStoreOrder(p, user);
      var r := UserTransactions(s, user);
      if s[|s| - 1].userId == user {
        assert r[..|r| - 1] == UserTransactions(p, user);
      } else {
        assert r == UserTransactions(p, user);
      }
    }
  }

  /** Each of the caller's entries is listed as often as it is stored, and nothing else is. */
  lemma {:induction false} UserTransactionsComplete(s: seq<Transaction>, user: string, t: Transaction)
    ensures multiset(UserTransactions(s, user))[t] == if t.userId == user then multiset(s)[t] else 0
    decreases |s|
  {
    if s != [] {
      var p := s[..|s| - 1];
      assert s == p + [s[|s| - 1]];
      UserTransactionsComplete(p, user, t);
    }
  }

  // ---------------------------------------------------------------------
  // Deleting an entry
  // ---------------------------------------------------------------------

  /** The entry a delete by `user` of `transactionId` is aimed at. */
  predicate IsMatch(t: Transaction, transactionId: string, user: string) {
    t.transactionId == transactionId && t.userId == user
  }

  /** The index of the first entry matching both the id and the caller, if any. */
  function FirstMatch(s: seq<Transaction>, transactionId: string, user: string): (k: Option<nat>)
    ensures k.Some? ==> k.value < |s| && IsMatch(s[k.value], transactionId, user)
    ensures k.Some? ==> forall j :: 0 <= j < k.value ==> !IsMatch(s[j], transactionId, user)
    ensures k.None? ==> forall j :: 0 <= j < |s| ==> !IsMatch(s[j], transactionId, user)
  {
    if s == [] then None
    else if IsMatch(s[0], transactionId, user) then Some(0)
    else match FirstMatch(s[1..], transactionId, user)
      case None => None
      case Some(k) => Some(k + 1)
  }

  /**
   * The store after `delete_transaction`: the first matching entry is
   * gone, everything else stays in order; without a match nothing changes.
   */
  function WithoutFirstMatch(s: seq<Transaction>, transactionId: string, user: string): (r: seq<Transaction>)
    ensures FirstMatch(s, transactionId, user).None? ==> r == s
    ensures FirstMatch(s, transactionId, user).Some? ==>
              var k := FirstMatch(s, transactionId, user).value;
              |r| == |s| - 1 && multiset(r) + multiset{s[k]} == multiset(s)
              && r[..k] == s[..k] && r[k..] == s[k + 1..]
  {
    match FirstMatch(s, transactionId, user)
    case None => s
    case Some(k) =>
      assert s == s[..k] + [s[k]] + s[k + 1..];
      s[..k] + s[k + 1..]
  }

  /** A delete never touches what another user sees. */
  lemma DeleteKeepsOtherUsers(s: seq<Transaction>, transactionId: string, user: string, other: string)
    requires other != user
    ensures UserTransactions(WithoutFirstMatch(s, transactionId, user), other) == UserTransactions(s, other)
  {
    var m := FirstMatch(s, transactionId, user);
    if m.Some? {
      var k := m.value;
      assert WithoutFirstMatch(s, transactionId, user) == s[..k] + s[k + 1..];
      assert s == s[..k] + [s[k]] + s[k + 1..];
      UserTransactionsSkip(s[..k], s[k], s[k + 1..], other);
    }
  }

  /** Deleting, as its owner, an entry just appended under a fresh id gives back the earlier store. */
  lemma DeleteUndoesAdd(s: seq<Transaction>, t: Transaction)
    requires forall j :: 0 <= j < |s| ==> s[j].transactionId != t.transactionId
    ensures WithoutFirstMatch(s + [t], t.transactionId, t.userId) == s
  {
    var s' := s + [t];
    assert IsMatch(s'[|s|], t.transactionId, t.userId);
    assert FirstMatch(s', t.transactionId, t.userId) == Some(|s|);
    assert s'[..|s|] == s;
  }

  // ---------------------------------------------------------------------
  // The summary
  // ---------------------------------------------------------------------

  /** The test `t.type == 'IN'` that the breakdown loop branches on. */
  predicate IsInflow(t: Transaction) {
    t.kind == "IN"
  }

  /** `sum(t.amount for t in s if t.type == kind)`. */
  function SumOfKind(s: seq<Transaction>, kind: string): real {
    if s == [] then 0.0
    else SumOfKind(s[..|s| - 1], kind) + (if s[|s| - 1].kind == kind then s[|s| - 1].amount else 0.0)
  }

  /** `sum(t.amount for t in s if t.type == 'IN')`. */
  function SumIn(s: seq<Transaction>): real {
    SumOfKind(s, "IN")
  }

  /** The total of every amount whose type is not 'IN' (what the breakdown files under 'out'). */
  function SumNotIn(s: seq<Transaction>): real {
    if s == [] then 0.0
    else SumNotIn(s[..|s| - 1]) + (if !IsInflow(s[|s| - 1]) then s[|s| - 1].amount else 0.0)
  }

  /** The entries of `s` in category `c`, in order. */
  function InCategory(s: seq<Transaction>, c: string): seq<Transaction> {
    if s == [] then []
    else InCategory(s[..|s| - 1], c) + (if s[|s| - 1].category == c then [s[|s| - 1]] else [])
  }

  /** One category's `{'in': …, 'out': …}` entry. */
  datatype Breakdown = Breakdown(inflow: real, outflow: real)

  /** One pass of the category loop: create the entry if new, then add the amount to 'in' or 'out'. */
  function Tally(m: map<string, Breakdown>, t: Transaction): map<string, Breakdown> {
    var b := Lookup(m, t.category);
    m[t.category := if IsInflow(t) then b.(inflow := b.inflow + t.amount)
                    else b.(outflow := b.outflow + t.amount)]
  }

  /** The `categories` dictionary the loop of `get_summary` builds from `s`. */
  function Categories(s: seq<Transaction>): map<string, Breakdown> {
    if s == [] then map[]
    else Tally(Categories(s[..|s| - 1]), s[|s| - 1])
  }

  /** The breakdown has exactly one key per category occurring in `s`. */
  lemma {:induction false} CategoriesKeys(s: seq<Transaction>)
    ensures forall c :: c in Categories(s) <==> exists t :: t in s && t.category == c
    decreases |s|
  {
    if s != [] {
      var p := s[..|s| - 1];
      assert s == p + [s[|s| - 1]];
      CategoriesKeys(p);
    }
  }

  /** A category's entry, or zeros when it has none yet. */
  function Lookup(m: map<string, Breakdown>, c: string): Breakdown {
    if c in m then m[c] else Breakdown(0.0, 0.0)
  }

  /** One pass of the loop changes only the entry of the transaction's own category. */
  lemma TallyLookup(m: map<string, Breakdown>, t: Transaction, c: string)
    ensures c != t.category ==> Lookup(Tally(m, t), c) == Lookup(m, c)
    ensures c == t.category && IsInflow(t) ==>
              Lookup(Tally(m, t), c) == Breakdown(Lookup(m, c).inflow + t.amount, Lookup(m, c).outflow)
    ensures c == t.category && !IsInflow(t) ==>
              Lookup(Tally(m, t), c) == Breakdown(Lookup(m, c).inflow, Lookup(m, c).outflow + t.amount)
  {
  }

  /** Appending one entry adds its amount to exactly one of the two totals. */
  lemma SumsAppendOne(q: seq<Transaction>, t: Transaction)
    ensures SumIn(q + [t]) == SumIn(q) + (if IsInflow(t) then t.amount else 0.0)
    ensures SumNotIn(q + [t]) == SumNotIn(q) + (if IsInflow(t) then 0.0 else t.amount)
  {
  }

  /**
   * Each category's entry holds the total of its 'IN' amounts and the total
   * of all its other amounts; a category that does not occur reads as zero.
   */
  lemma {:induction false} CategoryEntry(s: seq<Transaction>, c: string)
    ensures Lookup(Categories(s), c) == Breakdown(SumIn(InCategory(s, c)), SumNotIn(InCategory(s, c)))
    decreases |s|
  {
    if s != [] {
      var p, t := s[..|s| - 1], s[|s| - 1];
      CategoryEntry(p, c);
      assert Categories(s) == Tally(Categories(p), t);
      TallyLookup(Categories(p), t, c);
      if t.category == c {
        assert InCategory(s, c) == InCategory(p, c) + [t];
        SumsAppendOne(InCategory(p, c), t);
      } else {
        assert InCategory(s, c) == InCategory(p, c);
      }
    }
  }

  /** The dictionary's keys in insertion order: each category where it first occurs. */
  function CategoryOrder(s: seq<Transaction>): (keys: seq<string>)
    ensures NoDuplicates(keys)
  {
    if s == [] then []
    else
      var p := CategoryOrder(s[..|s| - 1]);
      var c := s[|s| - 1].category;
      if c in p then p else p + [c]
  }

  ghost predicate NoDuplicates(keys: seq<string>) {
    forall i, j :: 0 <= i < j < |keys| ==> keys[i] != keys[j]
  }

  /** The ordered keys are exactly the keys of the breakdown. */
  lemma {:induction false} CategoryOrderKeys(s: seq<Transaction>)
    ensures forall c :: c in CategoryOrder(s) <==> c in Categories(s)
    decreases |s|
  {
    if s != [] {
      CategoryOrderKeys(s[..|s| - 1]);
    }
  }

  /** Selects the 'in' or the 'out' side of the breakdown. */
  datatype Column = In | Out

  function Entry(b: Breakdown, col: Column): real {
    if col == In then b.inflow else b.outflow
  }

  /** The sum of one column over the entries named by `keys`. */
  function Total(keys: seq<string>, m: map<string, Breakdown>, col: Column): real {
    if keys == [] then 0.0
    else Total(keys[..|keys| - 1], m, col) + Entry(Lookup(m, keys[|keys| - 1]), col)
  }

  lemma {:induction false} TotalUnchanged(keys: seq<string>, m: map<string, Breakdown>, c: string, b: Breakdown, col: Column)
    requires c !in keys
    ensures Total(keys, m[c := b], col) == Total(keys, m, col)
    decreases |keys|
  {
    if keys != [] {
      TotalUnchanged(keys[..|keys| - 1], m, c, b, col);
    }
  }

  lemma {:induction false} TotalUpdate(keys: seq<string>, m: map<string, Breakdown>, c: string, b: Breakdown, col: Column)
    requires NoDuplicates(keys)
    requires c in keys
    ensures Total(keys, m[c := b], col) == Total(keys, m, col) - Entry(Lookup(m, c), col) + Entry(b, col)
    decreases |keys|
  {
    var p := keys[..|keys| - 1];
    if keys[|keys| - 1] == c {
      TotalUnchanged(p, m, c, b, col);
    } else {
      assert c in p by {
        var i :| 0 <= i < |keys| && keys[i] == c;
        assert p[i] == c;
      }
      TotalUpdate(p, m, c, b, col);
    }
  }

  /** What summing a column over the whole breakdown should give. */
  function ColumnSum(s: seq<Transaction>, col: Column): real {
    if col == In then SumIn(s) else SumNotIn(s)
  }

  /** Summing 'in' over every key gives the 'IN' total; summing 'out' gives the total of everything else. */
  lemma {:induction false} CategoryTotals(s: seq<Transaction>, col: Column)
    ensures Total(CategoryOrder(s), Categories(s), col) == ColumnSum(s, col)
    decreases |s|
  {
    if s != [] {
      var p, t := s[..|s| - 1], s[|s| - 1];
      CategoryTotals(p, col);
      assert s == p + [t];
      ColumnSumStep(p, t, Categories(p), col);
      assert Categories(s) == Tally(Categories(p), t);
      if t.category in CategoryOrder(p) {
        TotalStepKnownCategory(CategoryOrder(p), Categories(p), t, col);
      } else {
        CategoryOrderKeys(p);
        TotalStepNewCategory(CategoryOrder(p), Categories(p), t, col);
      }
    }
  }

  lemma TotalStepKnownCategory(keys: seq<string>, m: map<string, Breakdown>, t: Transaction, col: Column)
    requires NoDuplicates(keys)
    requires t.category in keys
    ensures Total(keys, Tally(m, t), col)
         == Total(keys, m, col) + Entry(Lookup(Tally(m, t), t.category), col) - Entry(Lookup(m, t.category), col)
  {
    var b' := Lookup(Tally(m, t), t.category);
    assert Tally(m, t) == m[t.category := b'];
    TotalUpdate(keys, m, t.category, b', col);
  }

  lemma TotalStepNewCategory(keys: seq<string>, m: map<string, Breakdown>, t: Transaction, col: Column)
    requires t.category !in keys && t.category !in m
    ensures Total(keys + [t.category], Tally(m, t), col)
         == Total(keys, m, col) + Entry(Lookup(Tally(m, t), t.category), col) - Entry(Lookup(m, t.category), col)
  {
    var b' := Lookup(Tally(m, t), t.category);
    assert Tally(m, t) == m[t.category := b'];
    assert (keys + [t.category])[..|keys|] == keys;
    TotalUnchanged(keys, m, t.category, b', col);
  }

  /** One more entry moves the column total by what it adds to its category's entry. */
  lemma ColumnSumStep(p: seq<Transaction>, t: Transaction, m: map<string, Breakdown>, col: Column)
    ensures ColumnSum(p + [t], col)
         == ColumnSum(p, col) + Entry(Lookup(Tally(m, t), t.category), col) - Entry(Lookup(m, t.category), col)
  {
  }

  /** When every type is 'IN' or 'OUT', the 'out' side totals exactly the 'OUT' amounts. */
  lemma {:induction false} OutflowIsCashOut(s: seq<Transaction>)
    requires forall i :: 0 <= i < |s| ==> s[i].kind == "IN" || s[i].kind == "OUT"
    ensures SumNotIn(s) == SumOfKind(s, "OUT")
    decreases |s|
  {
    if s != [] {
      OutflowIsCashOut(s[..|s| - 1]);
    }
  }

  /** Any other type (here a lower-case 'out') is filed under 'out' but left out of `cash_out`. */
  lemma OutflowCountsOtherTypes(d: DateTime)
    ensures var s := [Transaction("t1", "ZIYAD", "out", 5.0, "Food", "", "Cash", d)];
            SumNotIn(s) == 5.0 && SumOfKind(s, "OUT") == 0.0
  {
  }

  /** The body of `get_summary`'s reply. */
  datatype Summary = Summary(cashIn: real, cashOut: real, balance: real, categories: map<string, Breakdown>)

  /** `get_summary` for `user` over the store `s`. */
  function SummaryOf(s: seq<Transaction>, user: string): (r: Summary)
    ensures r.balance == r.cashIn - r.cashOut
    ensures forall c :: c in r.categories <==> exists t :: t in s && t.userId == user && t.category == c
  {
    var mine := UserTransactions(s, user);
    UserTransactionsMembers(s, user);
    CategoriesKeys(mine);
    var cashIn := SumIn(mine);
    var cashOut := SumOfKind(mine, "OUT");
    Summary(cashIn, cashOut, cashIn - cashOut, Categories(mine))
  }

  /** Another user's entry, wherever it sits in the store, changes nothing in the summary. */
  lemma SummaryIgnoresOtherUsers(a: seq<Transaction>, t: Transaction, b: seq<Transaction>, user: string)
    requires t.userId != user
    ensures SummaryOf(a + [t] + b, user) == SummaryOf(a + b, user)
  {
    UserTransactionsSkip(a, t, b, user);
  }

  /**
   * The breakdown agrees with the totals: its 'in' column sums to `cash_in`,
   * and its 'out' column to `cash_out` when the caller's types are all 'IN' or 'OUT'.
   */
  lemma SummaryBreakdownTotals(s: seq<Transaction>, user: string)
    ensures var mine := UserTransactions(s, user);
            Total(CategoryOrder(mine), SummaryOf(s, user).categories, In) == SummaryOf(s, user).cashIn
    ensures var mine := UserTransactions(s, user);
            (forall i :: 0 <= i < |mine| ==> mine[i].kind == "IN" || mine[i].kind == "OUT") ==>
            Total(CategoryOrder(mine), SummaryOf(s, user).categories, Out) == SummaryOf(s, user).cashOut
  {
    var mine := UserTransactions(s, user);
    CategoryTotals(mine, In);
    CategoryTotals(mine, Out);
    if forall i :: 0 <= i < |mine| ==> mine[i].kind == "IN" || mine[i].kind == "OUT" {
      OutflowIsCashOut(mine);
    }
  }

  /**
   * Appending one of the caller's entries adds its amount to `cash_in` or
   * `cash_out` according to its type and runs one more pass of the category loop.
   */
  lemma SummaryAfterAdd(s: seq<Transaction>, t: Transaction)
    ensures var before, after := SummaryOf(s, t.userId), SummaryOf(s + [t], t.userId);
            && after.cashIn == before.cashIn + (if IsInflow(t) then t.amount else 0.0)
            && after.cashOut == before.cashOut + (if t.kind == "OUT" then t.amount else 0.0)
            && after.categories == Tally(before.categories, t)
  {
  }
}
