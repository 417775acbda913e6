/**
 * The values every scheduled report is computed from, as the cron routes derive them
 * from the transactions and tasks of a window: income, expense and net, task statistics,
 * the five largest expense categories, and the sent/failed counts of a batch of emails.
 * These are the filter/reduce/sort expressions of the routes, written as functions.
 */
module ReportData {
  import opened Domain
  import opened Sorting
  import Text

  // ---------------------------------------------------------------------------------------
  // Income, expense and net.

  /** `ts.filter(t => t.type === ty).reduce((sum, t) => sum + t.amount, 0)`, left to right. */
  function TypeTotal(ts: seq<Transaction>, ty: TransactionType): int {
    if ts == [] then 0
    else TypeTotal(ts[..|ts| - 1], ty) + (if ts[|ts| - 1].txType == ty then ts[|ts| - 1].amount else 0)
  }

  /** The sum of all amounts, whatever their type. */
  function TotalAmount(ts: seq<Transaction>): int {
    if ts == [] then 0 else TotalAmount(ts[..|ts| - 1]) + ts[|ts| - 1].amount
  }

  /** Every transaction is counted exactly once: either as income or as expense, never both. */
  lemma {:induction false} IncomeExpensePartition(ts: seq<Transaction>)
    ensures TypeTotal(ts, INCOME) + TypeTotal(ts, EXPENSE) == TotalAmount(ts)
  {
    if ts != [] {
      IncomeExpensePartition(ts[..|ts| - 1]);
    }
  }

  /** The totals of a concatenation are the sums of the totals of its parts. */
  lemma {:induction false} TypeTotalAppend(a: seq<Transaction>, b: seq<Transaction>, ty: TransactionType)
    ensures TypeTotal(a + b, ty) == TypeTotal(a, ty) + TypeTotal(b, ty)
    decreases |b|
  {
    if b == [] {
      assert a + b == a;
    } else {
      assert (a + b)[..|a + b| - 1] == a + b[..|b| - 1];
      TypeTotalAppend(a, b[..|b| - 1], ty);
    }
  }

  /** Taking one row out of a list takes its amount out of the total of its type. */
  lemma TypeTotalRemove(b: seq<Transaction>, k: nat, ty: TransactionType)
    requires k < |b|
    ensures TypeTotal(b, ty) == TypeTotal(b[..k] + b[k + 1..], ty) + (if b[k].txType == ty then b[k].amount else 0)
    ensures multiset(b[..k] + b[k + 1..]) == multiset(b) - multiset{b[k]}
  {
    var x := b[k];
    assert b == b[..k] + [x] + b[k + 1..];
    TypeTotalAppend(b[..k] + [x], b[k + 1..], ty);
    TypeTotalAppend(b[..k], [x], ty);
    TypeTotalAppend(b[..k], b[k + 1..], ty);
    assert [x][..0] == [];
  }

  /** The last row of `a` occurs in any permutation `b` of `a`; taking it out leaves a permutation of the rest. */
  lemma PickLast(a: seq<Transaction>, b: seq<Transaction>) returns (k: nat)
    requires a != [] && multiset(a) == multiset(b)
    ensures k < |b| && b[k] == a[|a| - 1]
    ensures multiset(b[..k] + b[k + 1..]) == multiset(a[..|a| - 1])
  {
    var init, x := a[..|a| - 1], a[|a| - 1];
    assert a == init + [x];
    assert multiset(a) == multiset(init) + multiset{x};
    assert x in multiset(b);
    k :| 0 <= k < |b| && b[k] == x;
    var rest := b[..k] + b[k + 1..];
    assert b == b[..k] + [x] + b[k + 1..];
    assert multiset(b) == multiset(rest) + multiset{x};
    assert multiset(rest) == multiset(b) - multiset{x};
    assert multiset(init) == multiset(a) - multiset{x};
  }

  /** The totals do not depend on the order the rows come in. */
  lemma {:induction false} TypeTotalPermutation(a: seq<Transaction>, b: seq<Transaction>, ty: TransactionType)
    requires multiset(a) == multiset(b)
    ensures TypeTotal(a, ty) == TypeTotal(b, ty)
    decreases |a|
  {
    if a == [] {
      assert |b| == |multiset(b)| == 0;
    } else {
      var k := PickLast(a, b);
      TypeTotalRemove(b, k, ty);
      TypeTotalPermutation(a[..|a| - 1], b[..k] + b[k + 1..], ty);
    }
  }

  /** The financial summary of a report. */
  datatype Summary = Summary(income: int, expense: int, net: int)

  /** `{ income, expense, net: income - expense }` over the transactions of a window. */
  function Summarize(ts: seq<Transaction>): Summary {
    var income := TypeTotal(ts, INCOME);
    var expense := TypeTotal(ts, EXPENSE);
    Summary(income, expense, income - expense)
  }

  /** Reordering the rows of a window leaves its summary unchanged. */
  lemma SummarizePermutation(a: seq<Transaction>, b: seq<Transaction>)
    requires multiset(a) == multiset(b)
    ensures Summarize(a) == Summarize(b)
  {
    TypeTotalPermutation(a, b, INCOME);
    TypeTotalPermutation(a, b, EXPENSE);
  }

  /** The net of a window plus twice its expense is the sum of all its amounts. */
  lemma SummaryAccountsForAll(ts: seq<Transaction>)
    ensures Summarize(ts).net + 2 * Summarize(ts).expense == TotalAmount(ts)
    ensures Summarize(ts).income + Summarize(ts).expense == TotalAmount(ts)
  {
    IncomeExpensePartition(ts);
  }

  // ---------------------------------------------------------------------------------------
  // Task statistics.

  /** `tasks.filter(t => t.status === st).length`. */
  function CountStatus(ts: seq<Task>, st: TaskStatus): nat {
    if ts == [] then 0
    else CountStatus(ts[..|ts| - 1], st) + (if ts[|ts| - 1].status == st then 1 else 0)
  }

  /** Tasks of two different statuses are disjoint, so their counts add up to at most the total. */
  lemma {:induction false} TwoStatusesBound(ts: seq<Task>, a: TaskStatus, b: TaskStatus)
    requires a != b
    ensures CountStatus(ts, a) + CountStatus(ts, b) <= |ts|
  {
    if ts != [] {
      TwoStatusesBound(ts[..|ts| - 1], a, b);
    }
  }

  datatype TaskStatistics = TaskStatistics(completed: nat, inProgress: nat, total: nat)

  /** `{ completed, inProgress, total }` of the tasks created in a window. */
  function TaskStats(ts: seq<Task>): (r: TaskStatistics)
    ensures r.total == |ts|
    ensures r.completed + r.inProgress <= r.total
  {
    TwoStatusesBound(ts, DONE, IN_PROGRESS);
    TaskStatistics(CountStatus(ts, DONE), CountStatus(ts, IN_PROGRESS), |ts|)
  }

  // ---------------------------------------------------------------------------------------
  // Expense categories.

  /** One entry of the `categoryExpenses` record: a category name and its summed amount. */
  datatype CategoryTotal = CategoryTotal(name: string, amount: int)

  function Names(cs: seq<CategoryTotal>): (r: seq<string>)
    ensures |r| == |cs| && forall i :: 0 <= i < |cs| ==> r[i] == cs[i].name
  {
    seq(|cs|, i requires 0 <= i < |cs| => cs[i].name)
  }

  predicate DistinctNames(cs: seq<CategoryTotal>) {
    forall i, j :: 0 <= i < j < |cs| ==> cs[i].name != cs[j].name
  }

  /** `acc[name] || 0`: the amount recorded under `name`, 0 when there is none. */
  function Lookup(cs: seq<CategoryTotal>, name: string): int {
    if cs == [] then 0 else if cs[0].name == name then cs[0].amount else Lookup(cs[1..], name)
  }

  /**
   * `acc[name] = (acc[name] || 0) + amount`: an existing key keeps its place and grows,
   * a new key is added last. This is the order in which the keys were created, which
   * `Entries` turns into the order `Object.entries` lists them in.
   */
  function AddTo(cs: seq<CategoryTotal>, name: string, amount: int): seq<CategoryTotal> {
    if cs == [] then [CategoryTotal(name, amount)]
    else if cs[0].name == name then [CategoryTotal(name, cs[0].amount + amount)] + cs[1..]
    else [cs[0]] + AddTo(cs[1..], name, amount)
  }

  lemma NamesCons(c: CategoryTotal, cs: seq<CategoryTotal>)
    ensures Names([c] + cs) == [c.name] + Names(cs)
  {
    var l, r := Names([c] + cs), [c.name] + Names(cs);
    forall i | 0 <= i < |l| ensures l[i] == r[i] {
      if i > 0 {
        assert ([c] + cs)[i] == cs[i - 1];
      }
    }
  }

  /** `AddTo` keeps the order of the keys and appends a new one. */
  lemma {:induction false} AddToNames(cs: seq<CategoryTotal>, name: string, amount: int)
    ensures Names(AddTo(cs, name, amount)) == if name in Names(cs) then Names(cs) else Names(cs) + [name]
  {
    if cs != [] {
      var r := AddTo(cs, name, amount);
      assert cs == [cs[0]] + cs[1..];
      NamesCons(cs[0], cs[1..]);
      if cs[0].name == name {
        NamesCons(CategoryTotal(name, cs[0].amount + amount), cs[1..]);
        assert Names(cs)[0] == name;
      } else {
        var rest := AddTo(cs[1..], name, amount);
        AddToNames(cs[1..], name, amount);
        NamesCons(cs[0], rest);
        if name in Names(cs[1..]) {
          assert name in Names(cs);
        } else {
          assert name !in Names(cs);
          assert [cs[0].name] + (Names(cs[1..]) + [name]) == Names(cs) + [name];
        }
      }
    }
  }

  /** `AddTo` changes only the amount recorded under `name`. */
  lemma {:induction false} AddToLookup(cs: seq<CategoryTotal>, name: string, amount: int, m: string)
    ensures Lookup(AddTo(cs, name, amount), m) == Lookup(cs, m) + (if m == name then amount else 0)
  {
    if cs != [] {
      var r := AddTo(cs, name, amount);
      if cs[0].name == name {
        assert r[1..] == cs[1..];
      } else {
        AddToLookup(cs[1..], name, amount, m);
        assert r[1..] == AddTo(cs[1..], name, amount);
      }
    }
  }

  /**
   * `acc[name] = (acc[name] || 0) + amount` keeps the keys distinct, keeps their order and
   * appends a new key, and grows only the amount under `name`.
   */
  lemma AddToSpec(cs: seq<CategoryTotal>, name: string, amount: int)
    requires DistinctNames(cs)
    ensures DistinctNames(AddTo(cs, name, amount))
    ensures Names(AddTo(cs, name, amount)) == if name in Names(cs) then Names(cs) else Names(cs) + [name]
    ensures forall m :: Lookup(AddTo(cs, name, amount), m) == Lookup(cs, m) + (if m == name then amount else 0)
  {
    var r := AddTo(cs, name, amount);
    AddToNames(cs, name, amount);
    forall m ensures Lookup(r, m) == Lookup(cs, m) + (if m == name then amount else 0) {
      AddToLookup(cs, name, amount, m);
    }
    forall i, j | 0 <= i < j < |r| ensures r[i].name != r[j].name {
      assert Names(r)[i] == r[i].name && Names(r)[j] == r[j].name;
      if name !in Names(cs) && j == |cs| {
        assert r[i].name == Names(cs)[i] == cs[i].name;
      }
    }
  }

  /** The sum of the EXPENSE amounts filed under category `name`. */
  function ExpenseIn(ts: seq<Transaction>, name: string): int {
    if ts == [] then 0
    else
      var t := ts[|ts| - 1];
      ExpenseIn(ts[..|ts| - 1], name) + (if t.txType == EXPENSE && t.categoryName == name then t.amount else 0)
  }

  /** Some EXPENSE transaction is filed under `name`. */
  predicate HasExpense(ts: seq<Transaction>, name: string) {
    exists i :: 0 <= i < |ts| && ts[i].txType == EXPENSE && ts[i].categoryName == name
  }

  /** The `categoryExpenses` reduce over the transactions of a window. */
  function CategoryExpenses(ts: seq<Transaction>): seq<CategoryTotal> {
    if ts == [] then []
    else
      var acc := CategoryExpenses(ts[..|ts| - 1]);
      var t := ts[|ts| - 1];
      if t.txType == EXPENSE then AddTo(acc, t.categoryName, t.amount) else acc
  }

  lemma {:induction false} CategoryExpensesDistinct(ts: seq<Transaction>)
    ensures DistinctNames(CategoryExpenses(ts))
  {
    if ts != [] {
      var init := ts[..|ts| - 1];
      var t := ts[|ts| - 1];
      CategoryExpensesDistinct(init);
      if t.txType == EXPENSE {
        AddToSpec(CategoryExpenses(init), t.categoryName, t.amount);
      }
    }
  }

  lemma {:induction false} CategoryExpensesLookup(ts: seq<Transaction>, m: string)
    ensures Lookup(CategoryExpenses(ts), m) == ExpenseIn(ts, m)
  {
    if ts != [] {
      var init := ts[..|ts| - 1];
      var t := ts[|ts| - 1];
      CategoryExpensesLookup(init, m);
      if t.txType == EXPENSE {
        AddToLookup(CategoryExpenses(init), t.categoryName, t.amount, m);
      }
    }
  }

  lemma {:induction false} CategoryExpensesNames(ts: seq<Transaction>, m: string)
    ensures m in Names(CategoryExpenses(ts)) <==> HasExpense(ts, m)
  {
    if ts != [] {
      var init := ts[..|ts| - 1];
      var t := ts[|ts| - 1];
      CategoryExpensesNames(init, m);
      if t.txType == EXPENSE {
        AddToNames(CategoryExpenses(init), t.categoryName, t.amount);
      }
      if HasExpense(init, m) {
        var i :| 0 <= i < |init| && init[i].txType == EXPENSE && init[i].categoryName == m;
        assert ts[i] == init[i];
      }
      if HasExpense(ts, m) && !HasExpense(init, m) {
        var i :| 0 <= i < |ts| && ts[i].txType == EXPENSE && ts[i].categoryName == m;
        assert forall k :: 0 <= k < |init| ==> init[k] == ts[k];
        assert i == |ts| - 1;
      }
    }
  }

  /**
   * The reduce builds one entry per category that has an expense, with distinct names, and
   * records under each name the sum of that category's expenses; income is never counted.
   */
  lemma CategoryExpensesSpec(ts: seq<Transaction>)
    ensures DistinctNames(CategoryExpenses(ts))
    ensures forall m :: Lookup(CategoryExpenses(ts), m) == ExpenseIn(ts, m)
    ensures forall m :: m in Names(CategoryExpenses(ts)) <==> HasExpense(ts, m)
  {
    CategoryExpensesDistinct(ts);
    forall m ensures Lookup(CategoryExpenses(ts), m) == ExpenseIn(ts, m) {
      CategoryExpensesLookup(ts, m);
    }
    forall m ensures m in Names(CategoryExpenses(ts)) <==> HasExpense(ts, m) {
      CategoryExpensesNames(ts, m);
    }
  }

  /** With distinct names, each entry holds exactly what `Lookup` finds under its name. */
  lemma {:induction false} LookupDistinct(cs: seq<CategoryTotal>, i: nat)
    requires DistinctNames(cs) && i < |cs|
    ensures Lookup(cs, cs[i].name) == cs[i].amount
  {
    if i > 0 {
      assert cs[1..][i - 1] == cs[i];
      LookupDistinct(cs[1..], i - 1);
    }
  }

  /**
   * A key that is an array index: the decimal digits of a number below 2^32 - 1, without a
   * leading zero. Of an object's own string keys, `Object.entries` lists these first.
   */
  predicate IsArrayIndex(name: string) {
    && |name| >= 1 && Text.AllDigits(name)
    && (name[0] != '0' || |name| == 1)
    && Text.DigitsValue(name) < 0xFFFF_FFFF
  }

  /** The entries whose key is an array index, in the order the keys were created. */
  function IndexKeyed(cs: seq<CategoryTotal>): seq<CategoryTotal> {
    if cs == [] then []
    else IndexKeyed(cs[..|cs| - 1]) + (if IsArrayIndex(cs[|cs| - 1].name) then [cs[|cs| - 1]] else [])
  }

  /** The other entries, in the order their keys were created. */
  function OtherKeyed(cs: seq<CategoryTotal>): seq<CategoryTotal> {
    if cs == [] then []
    else OtherKeyed(cs[..|cs| - 1]) + (if IsArrayIndex(cs[|cs| - 1].name) then [] else [cs[|cs| - 1]])
  }

  /** The last entry goes to exactly one of the two runs. */
  lemma KeyedLast(cs: seq<CategoryTotal>)
    requires cs != []
    ensures var init, x := cs[..|cs| - 1], cs[|cs| - 1];
      multiset(IndexKeyed(cs)) + multiset(OtherKeyed(cs))
      == multiset(IndexKeyed(init)) + multiset(OtherKeyed(init)) + multiset{x}
  {
    var init, x := cs[..|cs| - 1], cs[|cs| - 1];
    if IsArrayIndex(x.name) {
      assert IndexKeyed(cs) == IndexKeyed(init) + [x] && OtherKeyed(cs) == OtherKeyed(init);
      assert multiset(IndexKeyed(cs)) == multiset(IndexKeyed(init)) + multiset{x};
    } else {
      assert IndexKeyed(cs) == IndexKeyed(init) && OtherKeyed(cs) == OtherKeyed(init) + [x];
      assert multiset(OtherKeyed(cs)) == multiset(OtherKeyed(init)) + multiset{x};
    }
  }

  /** Every entry goes to exactly one of the two runs. */
  lemma {:induction false} KeyedSplit(cs: seq<CategoryTotal>)
    ensures multiset(IndexKeyed(cs)) + multiset(OtherKeyed(cs)) == multiset(cs)
  {
    if cs != [] {
      var init, x := cs[..|cs| - 1], cs[|cs| - 1];
      KeyedSplit(init);
      KeyedLast(cs);
      assert multiset(cs) == multiset(init) + multiset{x} by {
        assert cs == init + [x];
      }
    }
  }

  /** Each run holds only its own kind of key. */
  lemma {:induction false} KeyedKinds(cs: seq<CategoryTotal>)
    ensures forall c :: c in IndexKeyed(cs) ==> IsArrayIndex(c.name)
    ensures forall c :: c in OtherKeyed(cs) ==> !IsArrayIndex(c.name)
  {
    if cs != [] {
      var init, x := cs[..|cs| - 1], cs[|cs| - 1];
      KeyedKinds(init);
      if IsArrayIndex(x.name) {
        assert IndexKeyed(cs) == IndexKeyed(init) + [x] && OtherKeyed(cs) == OtherKeyed(init);
      } else {
        assert IndexKeyed(cs) == IndexKeyed(init) && OtherKeyed(cs) == OtherKeyed(init) + [x];
      }
    }
  }

  /** The numeric value of an entry's key when it is made of digits (0 otherwise). */
  function KeyValue(c: CategoryTotal): nat {
    if Text.AllDigits(c.name) then Text.DigitsValue(c.name) else 0
  }

  /** Array-index keys by ascending numeric value. */
  predicate ByKeyValue(a: CategoryTotal, b: CategoryTotal) {
    KeyValue(a) <= KeyValue(b)
  }

  /**
   * `Object.entries(categoryExpenses)`: the entries whose key is an array index first, in
   * ascending numeric order, then the other entries in the order their keys were created.
   */
  function Entries(cs: seq<CategoryTotal>): seq<CategoryTotal> {
    SortBy(IndexKeyed(cs), ByKeyValue) + OtherKeyed(cs)
  }

  /** `Object.entries` lists every entry exactly once. */
  lemma EntriesPermutation(cs: seq<CategoryTotal>)
    ensures multiset(Entries(cs)) == multiset(cs)
  {
    KeyedSplit(cs);
  }

  /**
   * The entries come in two runs: first the array-index keys, by ascending value; then the
   * other keys, in creation order.
   */
  lemma EntriesOrder(cs: seq<CategoryTotal>)
    ensures var k := |IndexKeyed(cs)|;
      var r := Entries(cs);
      && k <= |r|
      && (forall i :: 0 <= i < k ==> IsArrayIndex(r[i].name))
      && SortedBy(r[..k], ByKeyValue)
      && (forall i :: k <= i < |r| ==> !IsArrayIndex(r[i].name))
      && r[k..] == OtherKeyed(cs)
  {
    var indexed := IndexKeyed(cs);
    var sorted := SortBy(indexed, ByKeyValue);
    var r := Entries(cs);
    var k := |indexed|;
    assert r[..k] == sorted && r[k..] == OtherKeyed(cs);
    assert SortedBy(r[..k], ByKeyValue) by {
      SortBySorted(indexed, ByKeyValue);
    }
    forall i | 0 <= i < k ensures IsArrayIndex(r[i].name) {
      KeyedKinds(cs);
      assert r[i] == sorted[i] && sorted[i] in multiset(indexed);
    }
    forall i | k <= i < |r| ensures !IsArrayIndex(r[i].name) {
      KeyedKinds(cs);
      assert r[i] == OtherKeyed(cs)[i - k];
    }
  }

  /**
   * An entry whose key is an array index is listed before an entry with another key, although
   * its key was created last: expenses under "B" and then under "1" are listed "1" first.
   */
  lemma IndexKeyListedFirst(other: CategoryTotal, index: CategoryTotal)
    requires !IsArrayIndex(other.name) && IsArrayIndex(index.name)
    ensures Entries([other, index]) == [index, other]
  {
    var cs := [other, index];
    assert cs[..1] == [other] && [other][..0] == [];
    assert IndexKeyed([other]) == [] && OtherKeyed([other]) == [other];
    assert IndexKeyed(cs) == [index] && OtherKeyed(cs) == [other];
    assert SortBy([index], ByKeyValue) == [index] by {
      assert [index][..0] == [];
    }
  }

  /** "1" is an array index and "B" is not. */
  lemma OneIsIndexKey()
    ensures IsArrayIndex("1") && !IsArrayIndex("B")
  {
    assert !Text.IsDigit("B"[0]);
    assert "1"[..0] == [];
    assert Text.DigitsValue("1") == 1;
  }

  /** The comparator `([, a], [, b]) => b - a`: larger amounts first. */
  predicate ByAmountDesc(a: CategoryTotal, b: CategoryTotal) {
    a.amount >= b.amount
  }

  /** `Object.entries(categoryExpenses).sort(byAmountDesc)`: the stable sort keeps the entries' order among equal amounts. */
  function Ranked(ts: seq<Transaction>): seq<CategoryTotal> {
    SortBy(Entries(CategoryExpenses(ts)), ByAmountDesc)
  }

  /** `.slice(0, 5)` of the ranked entries. */
  function TopCategories(ts: seq<Transaction>): seq<CategoryTotal> {
    var ranked := Ranked(ts);
    if |ranked| <= 5 then ranked else ranked[..5]
  }

  /** A value occurring at two positions occurs at least twice in the multiset. */
  lemma TwoOccurrences<T>(s: seq<T>, i: nat, j: nat)
    requires i < j < |s| && s[i] == s[j]
    ensures multiset(s)[s[i]] >= 2
  {
    assert s == s[..j] + [s[j]] + s[j + 1..];
    assert s[..j][i] == s[i];
    assert multiset(s[..j])[s[i]] >= 1;
  }

  /** With distinct names no entry occurs twice. */
  lemma {:induction false} DistinctOnce(cs: seq<CategoryTotal>, x: CategoryTotal)
    requires DistinctNames(cs)
    ensures multiset(cs)[x] <= 1
  {
    if cs != [] {
      var init := cs[..|cs| - 1];
      assert cs == init + [cs[|cs| - 1]];
      DistinctOnce(init, x);
    }
  }

  /** Reordering an entry list with distinct names keeps the names distinct. */
  lemma DistinctNamesPermutation(a: seq<CategoryTotal>, b: seq<CategoryTotal>)
    requires multiset(a) == multiset(b) && DistinctNames(a)
    ensures DistinctNames(b)
  {
    forall i, j | 0 <= i < j < |b| ensures b[i].name != b[j].name {
      if b[i].name == b[j].name {
        assert b[i] in multiset(a) && b[j] in multiset(a);
        var p :| 0 <= p < |a| && a[p] == b[i];
        var q :| 0 <= q < |a| && a[q] == b[j];
        assert p == q;
        TwoOccurrences(b, i, j);
        DistinctOnce(a, b[i]);
        assert false;
      }
    }
  }

  /** Every entry of the reduce is a category with expenses, holding the sum of those expenses. */
  lemma CategoryEntries(ts: seq<Transaction>)
    ensures forall c :: c in CategoryExpenses(ts) ==> HasExpense(ts, c.name) && c.amount == ExpenseIn(ts, c.name)
  {
    var all := CategoryExpenses(ts);
    CategoryExpensesSpec(ts);
    forall c | c in all ensures HasExpense(ts, c.name) && c.amount == ExpenseIn(ts, c.name) {
      var i :| 0 <= i < |all| && all[i] == c;
      LookupDistinct(all, i);
      assert Names(all)[i] == c.name;
    }
  }

  /** The ranked entries are the entries of the reduce, and the top ones are its prefix. */
  lemma RankedEntries(ts: seq<Transaction>)
    ensures var ranked := Ranked(ts);
      && multiset(ranked) == multiset(CategoryExpenses(ts))
      && SortedBy(ranked, ByAmountDesc)
      && DistinctNames(ranked)
      && TopCategories(ts) == ranked[..|TopCategories(ts)|]
  {
    var all := CategoryExpenses(ts);
    var ranked := Ranked(ts);
    assert multiset(ranked) == multiset(all) by {
      EntriesPermutation(all);
    }
    CategoryExpensesDistinct(ts);
    SortBySorted(Entries(all), ByAmountDesc);
    DistinctNamesPermutation(all, ranked);
  }

  /**
   * The top categories: at most five entries with distinct names, ordered by amount from
   * the largest, each holding the sum of a category's expenses.
   */
  lemma TopCategoriesSpec(ts: seq<Transaction>)
    ensures |TopCategories(ts)| <= 5
    ensures SortedBy(TopCategories(ts), ByAmountDesc)
    ensures DistinctNames(TopCategories(ts))
    ensures forall c :: c in TopCategories(ts) ==> HasExpense(ts, c.name) && c.amount == ExpenseIn(ts, c.name)
  {
    var ranked := Ranked(ts);
    var r := TopCategories(ts);
    assert SortedBy(r, ByAmountDesc) && DistinctNames(r) by {
      RankedEntries(ts);
    }
    forall c | c in r ensures HasExpense(ts, c.name) && c.amount == ExpenseIn(ts, c.name) {
      assert c in CategoryExpenses(ts) by {
        RankedEntries(ts);
        assert c in multiset(ranked);
      }
      CategoryEntries(ts);
    }
  }

  /** An entry whose name is missing from a prefix lies beyond it. */
  lemma NotInPrefix(ranked: seq<CategoryTotal>, r: seq<CategoryTotal>, p: nat)
    requires |r| <= |ranked| && r == ranked[..|r|] && p < |ranked| && ranked[p].name !in Names(r)
    ensures p >= |r|
  {
  }

  /** An entry of a list sorted by amount that misses its first five is at most each of them. */
  lemma OmittedFromTopFive(ranked: seq<CategoryTotal>, p: nat)
    requires SortedBy(ranked, ByAmountDesc) && p < |ranked|
    requires ranked[p].name !in Names(if |ranked| <= 5 then ranked else ranked[..5])
    ensures |ranked| > 5
    ensures forall c :: c in ranked[..5] ==> ranked[p].amount <= c.amount
  {
    var r := if |ranked| <= 5 then ranked else ranked[..5];
    NotInPrefix(ranked, r, p);
    forall c | c in ranked[..5] ensures ranked[p].amount <= c.amount {
      var q :| 0 <= q < 5 && ranked[..5][q] == c;
      assert ByAmountDesc(ranked[q], ranked[p]);
    }
  }

  /**
   * A category with expenses is left out of the top categories only when five entries are
   * kept, each at least as large as it.
   */
  lemma TopCategoriesOmitted(ts: seq<Transaction>, m: string)
    requires HasExpense(ts, m) && m !in Names(TopCategories(ts))
    ensures |TopCategories(ts)| == 5
    ensures forall c :: c in TopCategories(ts) ==> ExpenseIn(ts, m) <= c.amount
  {
    var ranked := Ranked(ts);
    var p := RankedEntryOf(ts, m);
    SortBySorted(Entries(CategoryExpenses(ts)), ByAmountDesc);
    OmittedFromTopFive(ranked, p);
  }

  /** Every entry of the reduce has a place among the ranked entries. */
  lemma RankedPosition(ts: seq<Transaction>, c: CategoryTotal) returns (p: nat)
    requires c in CategoryExpenses(ts)
    ensures p < |Ranked(ts)| && Ranked(ts)[p] == c
  {
    var ranked := Ranked(ts);
    assert multiset(ranked) == multiset(CategoryExpenses(ts)) by {
      EntriesPermutation(CategoryExpenses(ts));
    }
    assert c in multiset(ranked);
    p :| 0 <= p < |ranked| && ranked[p] == c;
  }

  /** A category with expenses has an entry among the ranked ones, holding its expenses. */
  lemma RankedEntryOf(ts: seq<Transaction>, m: string) returns (p: nat)
    requires HasExpense(ts, m)
    ensures var ranked := Ranked(ts);
      p < |ranked| && ranked[p].name == m && ranked[p].amount == ExpenseIn(ts, m)
  {
    var all := CategoryExpenses(ts);
    CategoryExpensesDistinct(ts);
    CategoryExpensesLookup(ts, m);
    CategoryExpensesNames(ts, m);
    var k :| 0 <= k < |all| && Names(all)[k] == m;
    LookupDistinct(all, k);
    p := RankedPosition(ts, all[k]);
  }

  // ---------------------------------------------------------------------------------------
  // Email statistics.

  /** `{ recipient, success }`: the outcome of one send. */
  datatype EmailResult = EmailResult(recipient: string, success: bool)

  function SentCount(rs: seq<EmailResult>): nat {
    if rs == [] then 0 else SentCount(rs[..|rs| - 1]) + (if rs[|rs| - 1].success then 1 else 0)
  }

  function FailedCount(rs: seq<EmailResult>): nat {
    if rs == [] then 0 else FailedCount(rs[..|rs| - 1]) + (if rs[|rs| - 1].success then 0 else 1)
  }

  datatype EmailCounts = EmailCounts(emailsSent: nat, emailsFailed: nat)

  /** `emailStats`: every result is counted once, as sent or as failed. */
  function EmailStats(rs: seq<EmailResult>): (r: EmailCounts)
    ensures r.emailsSent + r.emailsFailed == |rs|
    ensures r.emailsFailed == 0 <==> forall i :: 0 <= i < |rs| ==> rs[i].success
  {
    SentFailedPartition(rs);
    EmailCounts(SentCount(rs), FailedCount(rs))
  }

  lemma {:induction false} SentFailedPartition(rs: seq<EmailResult>)
    ensures SentCount(rs) + FailedCount(rs) == |rs|
    ensures FailedCount(rs) == 0 <==> forall i :: 0 <= i < |rs| ==> rs[i].success
  {
    if rs != [] {
      var init := rs[..|rs| - 1];
      SentFailedPartition(init);
      assert forall i :: 0 <= i < |init| ==> init[i] == rs[i];
    }
  }
}
