/**
 * The query methods of TransactionRepository, as functions over the
 * transaction table given as a sequence. Date windows are inclusive at
 * both ends (SQL `BETWEEN`); a SQL `SUM` over no rows is `null` (None).
 */
module TransactionQueries {
  import opened Wrappers
  import opened Dates
  import opened Domain
  import Sorting

  // ------------------------------------------------------------ helpers

  /** The elements of `s` satisfying `p`, in order. */
  function Filter(s: seq<Transaction>, p: Transaction -> bool): (r: seq<Transaction>)
    ensures forall t :: t in r <==> t in s && p(t)
    ensures |r| <= |s|
  {
    if s == [] then []
    else (if p(s[0]) then [s[0]] else []) + Filter(s[1..], p)
  }

  lemma {:induction false} FilterFilter(s: seq<Transaction>, p: Transaction -> bool, q: Transaction -> bool, pq: Transaction -> bool)
    requires forall t :: pq(t) == (p(t) && q(t))
    ensures Filter(Filter(s, p), q) == Filter(s, pq)
  {
    if s != [] {
      FilterFilter(s[1..], p, q, pq);
      var head := if p(s[0]) then [s[0]] else [];
      assert Filter(s, p) == head + Filter(s[1..], p);
      FilterAppend(head, Filter(s[1..], p), q);
    }
  }

  lemma {:induction false} FilterAppend(a: seq<Transaction>, b: seq<Transaction>, p: Transaction -> bool)
    ensures Filter(a + b, p) == Filter(a, p) + Filter(b, p)
  {
    if a != [] {
      assert (a + b)[0] == a[0];
      assert (a + b)[1..] == a[1..] + b;
      FilterAppend(a[1..], b, p);
      assert Filter(a + b, p) == (if p(a[0]) then [a[0]] else []) + Filter(a[1..] + b, p);
    } else {
      assert a + b == b;
    }
  }

  /** `reduce(BigDecimal.ZERO, BigDecimal::add)` over the amounts. */
  function SumAmounts(s: seq<Transaction>): real {
    if s == [] then 0.0 else s[0].amount + SumAmounts(s[1..])
  }

  lemma {:induction false} SumAmountsNonNegative(s: seq<Transaction>)
    requires forall t | t in s :: t.amount >= 0.0
    ensures SumAmounts(s) >= 0.0
  {
    if s != [] {
      SumAmountsNonNegative(s[1..]);
    }
  }

  // ------------------------------------------------------ find queries

  /** `findByUser`. */
  function FindByUser(txs: seq<Transaction>, user: UserId): (r: seq<Transaction>)
    ensures forall t :: t in r <==> t in txs && t.owner == user
  {
    Filter(txs, (t: Transaction) => t.owner == user)
  }

  /** `findByUserAndDateBetween`. */
  function FindByUserAndDateBetween(txs: seq<Transaction>, user: UserId, start: Date, end: Date): (r: seq<Transaction>)
    ensures forall t :: t in r <==> t in txs && t.owner == user && InWindow(t.date, start, end)
  {
    Filter(txs, (t: Transaction) => t.owner == user && InWindow(t.date, start, end))
  }

  /** `t.category = :category`: the transaction's category is the same entity (same id). */
  predicate InCategory(t: Transaction, categoryId: int) {
    t.category.Some? && t.category.value.id == categoryId
  }

  /** `findByUserAndCategoryAndDateBetween`. */
  function FindByUserAndCategoryAndDateBetween(txs: seq<Transaction>, user: UserId, category: Category, start: Date, end: Date): (r: seq<Transaction>)
  {
    Filter(txs, (t: Transaction) => t.owner == user && InCategory(t, category.id) && InWindow(t.date, start, end))
  }

  /** The category query is the window query further restricted to the category, order kept. */
  lemma CategoryQueryRefinesWindowQuery(txs: seq<Transaction>, user: UserId, category: Category, start: Date, end: Date)
    ensures FindByUserAndCategoryAndDateBetween(txs, user, category, start, end)
         == Filter(FindByUserAndDateBetween(txs, user, start, end), (t: Transaction) => InCategory(t, category.id))
  {
    FilterFilter(txs, (t: Transaction) => t.owner == user && InWindow(t.date, start, end), (t: Transaction) => InCategory(t, category.id),
                 (t: Transaction) => t.owner == user && InCategory(t, category.id) && InWindow(t.date, start, end));
  }

  /** `findByUserOrderByDateDesc`: the user's transactions, latest first. */
  function FindByUserOrderByDateDesc(txs: seq<Transaction>, user: UserId): (r: seq<Transaction>)
    ensures multiset(r) == multiset(FindByUser(txs, user))
    ensures forall i, j :: 0 <= i < j < |r| ==> !IsBefore(r[i].date, r[j].date)
  {
    var r := Sorting.SortDesc(FindByUser(txs, user), (t: Transaction) => EpochDay(t.date) as real);
    forall i, j | 0 <= i < j < |r|
      ensures !IsBefore(r[i].date, r[j].date)
    {
      BeforeIsEarlierEpochDay(r[i].date, r[j].date);
    }
    r
  }

  // ------------------------------------------------------- sum queries

  /** SQL `SUM` over the given rows: null when there are none. */
  function SqlSum(rows: seq<Transaction>): (r: Option<real>)
    ensures r.None? <==> rows == []
  {
    if rows == [] then None else Some(SumAmounts(rows))
  }

  /** `sumIncomeByUser`: all-time income of the user, no date filter. */
  function SumIncomeByUser(txs: seq<Transaction>, user: UserId): Option<real> {
    SqlSum(Filter(txs, (t: Transaction) => t.owner == user && t.kind == Income))
  }

  /** `sumExpenseByUser`: all-time expense of the user, no date filter. */
  function SumExpenseByUser(txs: seq<Transaction>, user: UserId): Option<real> {
    SqlSum(Filter(txs, (t: Transaction) => t.owner == user && t.kind == Expense))
  }

  predicate Matches(t: Transaction, user: UserId, kind: Kind, start: Date, end: Date) {
    t.owner == user && t.kind == kind && InWindow(t.date, start, end)
  }

  /** The rows both aggregate queries range over. */
  function Matching(txs: seq<Transaction>, user: UserId, kind: Kind, start: Date, end: Date): (r: seq<Transaction>)
    ensures forall t :: t in r <==> t in txs && Matches(t, user, kind, start, end)
  {
    Filter(txs, (t: Transaction) => Matches(t, user, kind, start, end))
  }

  /** `sumByUserAndTypeAndDateBetween`. */
  function SumByUserAndTypeAndDateBetween(txs: seq<Transaction>, user: UserId, kind: Kind, start: Date, end: Date): (r: Option<real>)
    ensures r.None? <==> forall t | t in txs :: !Matches(t, user, kind, start, end)
    ensures r.Some? ==> r.value == SumAmounts(Matching(txs, user, kind, start, end))
  {
    var m := Matching(txs, user, kind, start, end);
    assert m != [] ==> m[0] in m;
    SqlSum(m)
  }

  /** An all-time sum is the windowed sum over a window that holds every transaction of the user. */
  lemma AllTimeIsWideWindow(txs: seq<Transaction>, user: UserId, start: Date, end: Date)
    requires forall t | t in txs && t.owner == user :: InWindow(t.date, start, end)
    ensures SumIncomeByUser(txs, user) == SumByUserAndTypeAndDateBetween(txs, user, Income, start, end)
    ensures SumExpenseByUser(txs, user) == SumByUserAndTypeAndDateBetween(txs, user, Expense, start, end)
  {
    FilterSame(txs, (t: Transaction) => t.owner == user && t.kind == Income, (t: Transaction) => Matches(t, user, Income, start, end));
    FilterSame(txs, (t: Transaction) => t.owner == user && t.kind == Expense, (t: Transaction) => Matches(t, user, Expense, start, end));
  }

  lemma {:induction false} FilterSame(s: seq<Transaction>, p: Transaction -> bool, q: Transaction -> bool)
    requires forall t | t in s :: p(t) == q(t)
    ensures Filter(s, p) == Filter(s, q)
  {
    if s != [] {
      FilterSame(s[1..], p, q);
    }
  }

  // ------------------------------------------------------ grouped sums

  predicate Distinct<K(==)>(ks: seq<K>) {
    forall i, j :: 0 <= i < j < |ks| ==> ks[i] != ks[j]
  }

  /** Sum of the amounts of the transactions whose key is `k`. */
  function SumWhere<K(==)>(s: seq<Transaction>, key: Transaction -> Option<K>, k: K): real {
    if s == [] then 0.0
    else (if key(s[0]) == Some(k) then s[0].amount else 0.0) + SumWhere(s[1..], key, k)
  }

  /** Sum of the amounts of the transactions that have a key. */
  function SumKeyed<K>(s: seq<Transaction>, key: Transaction -> Option<K>): real {
    if s == [] then 0.0
    else (if key(s[0]).Some? then s[0].amount else 0.0) + SumKeyed(s[1..], key)
  }

  /** Sum of the amounts of the transactions without a key. */
  function SumUnkeyed<K>(s: seq<Transaction>, key: Transaction -> Option<K>): real {
    if s == [] then 0.0
    else (if key(s[0]).None? then s[0].amount else 0.0) + SumUnkeyed(s[1..], key)
  }

  /** Σ over the keys `ks` of their sums. */
  function SumOverKeys<K(==)>(ks: seq<K>, s: seq<Transaction>, key: Transaction -> Option<K>): real {
    if ks == [] then 0.0 else SumWhere(s, key, ks[0]) + SumOverKeys(ks[1..], s, key)
  }

  /** Keyed and unkeyed parts make up the whole sum. */
  lemma {:induction false} SumSplits<K>(s: seq<Transaction>, key: Transaction -> Option<K>)
    ensures SumKeyed(s, key) + SumUnkeyed(s, key) == SumAmounts(s)
  {
    if s != [] {
      SumSplits(s[1..], key);
    }
  }

  /** With non-negative amounts, the keyed part is at most the whole. */
  lemma {:induction false} SumKeyedAtMostTotal<K>(s: seq<Transaction>, key: Transaction -> Option<K>)
    requires forall t | t in s :: t.amount >= 0.0
    ensures SumKeyed(s, key) <= SumAmounts(s)
  {
    if s != [] {
      SumKeyedAtMostTotal(s[1..], key);
    }
  }

  lemma {:induction false} SumOverKeysCons<K>(ks: seq<K>, t: Transaction, s: seq<Transaction>, key: Transaction -> Option<K>)
    requires Distinct(ks)
    ensures SumOverKeys(ks, [t] + s, key)
         == (if key(t).Some? && key(t).value in ks then t.amount else 0.0) + SumOverKeys(ks, s, key)
  {
    if ks != [] {
      assert ([t] + s)[1..] == s;
      SumOverKeysCons(ks[1..], t, s, key);
    }
  }

  /**
   * Summing per key over distinct keys that cover every keyed transaction
   * gives the sum of the keyed transactions.
   */
  lemma {:induction false} Partition<K>(ks: seq<K>, s: seq<Transaction>, key: Transaction -> Option<K>)
    requires Distinct(ks)
    requires forall t | t in s && key(t).Some? :: key(t).value in ks
    ensures SumOverKeys(ks, s, key) == SumKeyed(s, key)
  {
    if s != [] {
      assert s == [s[0]] + s[1..];
      assert s[0] in s;
      assert key(s[0]).Some? ==> key(s[0]).value in ks;
      SumOverKeysCons(ks, s[0], s[1..], key);
      assert SumOverKeys(ks, s, key)
          == (if key(s[0]).Some? then s[0].amount else 0.0) + SumOverKeys(ks, s[1..], key);
      forall t | t in s[1..] && key(t).Some?
        ensures key(t).value in ks
      {
        assert t in s;
      }
      Partition(ks, s[1..], key);
    } else {
      SumOverNothing(ks, key);
    }
  }

  lemma {:induction false} SumOverNothing<K>(ks: seq<K>, key: Transaction -> Option<K>)
    ensures SumOverKeys(ks, [], key) == 0.0
  {
    if ks != [] {
      SumOverNothing(ks[1..], key);
    }
  }

  /** The keys of `s`, each once, in order of first appearance. */
  function KeysOf<K(==,!new)>(s: seq<Transaction>, key: Transaction -> Option<K>): (r: seq<K>)
    ensures Distinct(r)
    ensures forall k :: k in r <==> exists i :: 0 <= i < |s| && key(s[i]) == Some(k)
  {
    if s == [] then []
    else
      var ks := KeysOf(s[..|s| - 1], key);
      var last := s[|s| - 1];
      assert forall i :: 0 <= i < |s| - 1 ==> s[..|s| - 1][i] == s[i];
      if key(last).Some? && key(last).value !in ks then ks + [key(last).value]
      else ks
  }

  /** One row of the grouped query: (categoryId, categoryName, SUM(amount)). */
  datatype CategoryRow = CategoryRow(categoryId: int, categoryName: string, amount: real)

  /** `GROUP BY t.category.id, t.category.name`; the join drops uncategorised transactions. */
  function GroupKey(t: Transaction): Option<(int, string)> {
    if t.category.Some? then Some((t.category.value.id, t.category.value.name)) else None
  }

  function Rows(ks: seq<(int, string)>, s: seq<Transaction>): (r: seq<CategoryRow>)
    ensures |r| == |ks|
    ensures forall i :: 0 <= i < |ks| ==>
      r[i] == CategoryRow(ks[i].0, ks[i].1, SumWhere(s, GroupKey, ks[i]))
  {
    if ks == [] then [] else [CategoryRow(ks[0].0, ks[0].1, SumWhere(s, GroupKey, ks[0]))] + Rows(ks[1..], s)
  }

  /**
   * `sumByUserAndTypeAndDateBetweenGroupByCategory`. SQL gives no row
   * order; the model lists groups in order of first appearance.
   */
  function GroupByCategory(txs: seq<Transaction>, user: UserId, kind: Kind, start: Date, end: Date): seq<CategoryRow> {
    var m := Matching(txs, user, kind, start, end);
    Rows(KeysOf(m, GroupKey), m)
  }

  function SumRows(rows: seq<CategoryRow>): real {
    if rows == [] then 0.0 else rows[0].amount + SumRows(rows[1..])
  }

  lemma {:induction false} SumRowsOverKeys(ks: seq<(int, string)>, s: seq<Transaction>)
    ensures SumRows(Rows(ks, s)) == SumOverKeys(ks, s, GroupKey)
  {
    if ks != [] {
      SumRowsOverKeys(ks[1..], s);
    }
  }

  /**
   * The grouped rows: one per (id, name) among the matching categorised
   * transactions, each summing exactly those transactions.
   */
  lemma GroupByCategoryRows(txs: seq<Transaction>, user: UserId, kind: Kind, start: Date, end: Date)
    ensures var rows := GroupByCategory(txs, user, kind, start, end);
      var m := Matching(txs, user, kind, start, end);
      (forall i, j :: 0 <= i < j < |rows| ==>
         (rows[i].categoryId, rows[i].categoryName) != (rows[j].categoryId, rows[j].categoryName))
      && (forall t | t in m && t.category.Some? ::
            exists i :: 0 <= i < |rows| && rows[i].categoryId == t.category.value.id
                                       && rows[i].categoryName == t.category.value.name)
      && (forall i :: 0 <= i < |rows| ==>
            rows[i].amount == SumWhere(m, GroupKey, (rows[i].categoryId, rows[i].categoryName)))
  {
    var m := Matching(txs, user, kind, start, end);
    var ks := KeysOf(m, GroupKey);
    var rows := Rows(ks, m);
    forall t | t in m && t.category.Some?
      ensures exists i :: 0 <= i < |rows| && rows[i].categoryId == t.category.value.id
                                         && rows[i].categoryName == t.category.value.name
    {
      var j :| 0 <= j < |m| && m[j] == t;
      assert GroupKey(m[j]) == Some((t.category.value.id, t.category.value.name));
      var i :| 0 <= i < |ks| && ks[i] == (t.category.value.id, t.category.value.name);
      assert rows[i].categoryId == t.category.value.id;
    }
  }

  /**
   * The grouped rows add up to the sum of the categorised matching
   * transactions; when every match has a category, to the flat sum.
   */
  lemma GroupRowsAddUp(txs: seq<Transaction>, user: UserId, kind: Kind, start: Date, end: Date)
    ensures var m := Matching(txs, user, kind, start, end);
      SumRows(GroupByCategory(txs, user, kind, start, end)) == SumKeyed(m, GroupKey)
    ensures (forall t | t in txs && Matches(t, user, kind, start, end) :: t.category.Some?) ==>
      SqlSum(Matching(txs, user, kind, start, end)).GetOr(0.0) == SumRows(GroupByCategory(txs, user, kind, start, end))
  {
    var m := Matching(txs, user, kind, start, end);
    var ks := KeysOf(m, GroupKey);
    SumRowsOverKeys(ks, m);
    forall t | t in m && GroupKey(t).Some?
      ensures GroupKey(t).value in ks
    {
      var j :| 0 <= j < |m| && m[j] == t;
    }
    Partition(ks, m, GroupKey);
    SumSplits(m, GroupKey);
    if forall t | t in txs && Matches(t, user, kind, start, end) :: t.category.Some? {
      UnkeyedZero(m, GroupKey);
    }
  }

  lemma {:induction false} UnkeyedZero<K>(s: seq<Transaction>, key: Transaction -> Option<K>)
    requires forall t | t in s :: key(t).Some?
    ensures SumUnkeyed(s, key) == 0.0
  {
    if s != [] {
      UnkeyedZero(s[1..], key);
    }
  }
}
