/** The figures the dashboard shows: income, expense, balance and suggested
    savings; expense per category as pandas' `groupby` builds it; the top
    category chosen by `idxmax`; and the recommendation picked from it. */
module Aggregation {
  import opened Text
  import opened Table

  function Abs(x: real): real {
    if x < 0.0 then -x else x
  }

  /** `.sum()` of the `monto` column. */
  function Total(rows: seq<Entry>): real {
    if rows == [] then 0.0 else rows[0].amount + Total(rows[1..])
  }

  lemma {:induction false} TotalAppend(a: seq<Entry>, b: seq<Entry>)
    ensures Total(a + b) == Total(a) + Total(b)
  {
    if a != [] {
      assert (a + b)[1..] == a[1..] + b;
      TotalAppend(a[1..], b);
    } else {
      assert a + b == b;
    }
  }

  /** `df[df['monto'] > 0]`. */
  function Positives(rows: seq<Entry>): (kept: seq<Entry>)
    ensures forall e :: e in kept ==> e in rows && e.amount > 0.0
  {
    if rows == [] then []
    else (if rows[0].amount > 0.0 then [rows[0]] else []) + Positives(rows[1..])
  }

  /** `df[df['monto'] < 0]`. */
  function Negatives(rows: seq<Entry>): (kept: seq<Entry>)
    ensures forall e :: e in kept ==> e in rows && e.amount < 0.0
  {
    if rows == [] then []
    else (if rows[0].amount < 0.0 then [rows[0]] else []) + Negatives(rows[1..])
  }

  /** The filters keep every row of their sign. */
  lemma {:induction false} FiltersComplete(rows: seq<Entry>)
    ensures forall e :: e in rows && e.amount > 0.0 ==> e in Positives(rows)
    ensures forall e :: e in rows && e.amount < 0.0 ==> e in Negatives(rows)
  {
    if rows != [] {
      FiltersComplete(rows[1..]);
      assert forall e :: e in rows ==> e == rows[0] || e in rows[1..];
    }
  }

  /** `ingresos`: the sum of the positive amounts. It is zero exactly when no
      row is income. */
  function Income(rows: seq<Entry>): (income: real)
    ensures income >= 0.0
    ensures income == 0.0 <==> forall i :: 0 <= i < |rows| ==> rows[i].amount <= 0.0
  {
    IncomeSigns(rows);
    Total(Positives(rows))
  }

  lemma {:induction false} IncomeSigns(rows: seq<Entry>)
    ensures Total(Positives(rows)) >= 0.0
    ensures Total(Positives(rows)) == 0.0 <==> forall i :: 0 <= i < |rows| ==> rows[i].amount <= 0.0
  {
    if rows != [] {
      IncomeSigns(rows[1..]);
      var head := if rows[0].amount > 0.0 then [rows[0]] else [];
      TotalAppend(head, Positives(rows[1..]));
      assert forall i :: 1 <= i < |rows| ==> rows[i] == rows[1..][i - 1];
    }
  }

  /** `gastos`: the sum of the negative amounts. It is zero exactly when no
      row is an expense. */
  function Expense(rows: seq<Entry>): (expense: real)
    ensures expense <= 0.0
    ensures expense == 0.0 <==> forall i :: 0 <= i < |rows| ==> rows[i].amount >= 0.0
  {
    ExpenseSigns(rows);
    Total(Negatives(rows))
  }

  lemma {:induction false} ExpenseSigns(rows: seq<Entry>)
    ensures Total(Negatives(rows)) <= 0.0
    ensures Total(Negatives(rows)) == 0.0 <==> forall i :: 0 <= i < |rows| ==> rows[i].amount >= 0.0
  {
    if rows != [] {
      ExpenseSigns(rows[1..]);
      var head := if rows[0].amount < 0.0 then [rows[0]] else [];
      TotalAppend(head, Negatives(rows[1..]));
      assert forall i :: 1 <= i < |rows| ==> rows[i] == rows[1..][i - 1];
    }
  }

  /** `balance = ingresos + gastos` is the sum of every amount: rows with
      amount zero fall in neither filter and change nothing. */
  lemma {:induction false} BalanceIsTotal(rows: seq<Entry>)
    ensures Income(rows) + Expense(rows) == Total(rows)
  {
    if rows != [] {
      BalanceIsTotal(rows[1..]);
      var pos := if rows[0].amount > 0.0 then [rows[0]] else [];
      var neg := if rows[0].amount < 0.0 then [rows[0]] else [];
      TotalAppend(pos, Positives(rows[1..]));
      TotalAppend(neg, Negatives(rows[1..]));
    }
  }

  /** Income and expense add up over any split of the table. */
  lemma {:induction false} SumsAppend(a: seq<Entry>, b: seq<Entry>)
    ensures Income(a + b) == Income(a) + Income(b)
    ensures Expense(a + b) == Expense(a) + Expense(b)
  {
    if a == [] {
      assert a + b == b;
    } else {
      assert (a + b)[1..] == a[1..] + b;
      SumsAppend(a[1..], b);
      var pos := if a[0].amount > 0.0 then [a[0]] else [];
      var neg := if a[0].amount < 0.0 then [a[0]] else [];
      TotalAppend(pos, Positives(a[1..] + b));
      TotalAppend(pos, Positives(a[1..]));
      TotalAppend(neg, Negatives(a[1..] + b));
      TotalAppend(neg, Negatives(a[1..]));
    }
  }

  /** `ahorro_potencial = abs(gastos) * 0.15`, exactly. */
  function SuggestedSavings(expense: real): (savings: real)
    ensures savings >= 0.0
    ensures savings == 0.0 <==> expense == 0.0
    ensures savings <= Abs(expense)
  {
    Abs(expense) * 0.15
  }

  /** One entry of a pandas Series indexed by category. */
  datatype Group = Group(category: string, total: real)

  /** The index is strictly increasing, as `groupby` (with its default
      `sort=True`) leaves it. */
  predicate KeysSorted(groups: seq<Group>) {
    forall i, j :: 0 <= i < j < |groups| ==> Less(groups[i].category, groups[j].category)
  }

  function Keys(groups: seq<Group>): set<string> {
    set i | 0 <= i < |groups| :: groups[i].category
  }

  /** The value under key `c`, zero when `c` is not a key. */
  function Lookup(groups: seq<Group>, c: string): real {
    if groups == [] then 0.0
    else if groups[0].category == c then groups[0].total
    else Lookup(groups[1..], c)
  }

  function SumTotals(groups: seq<Group>): real {
    if groups == [] then 0.0 else groups[0].total + SumTotals(groups[1..])
  }

  /** Adding `amount` to group `c`, opening the group at its sorted place when
      it does not exist yet. */
  function AddTo(groups: seq<Group>, c: string, amount: real): (r: seq<Group>)
    requires KeysSorted(groups)
    ensures KeysSorted(r)
    ensures Keys(r) == Keys(groups) + {c}
  {
    if groups == [] then
      KeysCons(Group(c, amount), []);
      SortedCons(Group(c, amount), []);
      [Group(c, amount)]
    else
      assert groups == [groups[0]] + groups[1..];
      KeysCons(groups[0], groups[1..]);
      KeysSortedTail(groups);
      if groups[0].category == c then
        KeyNotInTail(groups);
        KeysCons(Group(c, groups[0].total + amount), groups[1..]);
        SortedCons(Group(c, groups[0].total + amount), groups[1..]);
        [Group(c, groups[0].total + amount)] + groups[1..]
      else if Less(c, groups[0].category) then
        BelowAll(c, groups);
        KeysCons(Group(c, amount), groups);
        SortedCons(Group(c, amount), groups);
        [Group(c, amount)] + groups
      else
        LessTotal(c, groups[0].category);
        var tail := AddTo(groups[1..], c, amount);
        KeysCons(groups[0], tail);
        AboveAll(groups[0].category, groups[1..], c, tail);
        SortedCons(groups[0], tail);
        [groups[0]] + tail
  }

  /** A group whose key is below every key of a sorted index can go in front. */
  lemma SortedCons(g: Group, groups: seq<Group>)
    requires KeysSorted(groups)
    requires forall j :: 0 <= j < |groups| ==> Less(g.category, groups[j].category)
    ensures KeysSorted([g] + groups)
  {
    var r := [g] + groups;
    forall i, j | 0 <= i < j < |r| ensures Less(r[i].category, r[j].category) {
      assert r[j] == groups[j - 1];
      if i > 0 {
        assert r[i] == groups[i - 1];
      }
    }
  }

  /** A key below the first key of a sorted index is below all of them. */
  lemma BelowAll(c: string, groups: seq<Group>)
    requires groups != [] && KeysSorted(groups) && Less(c, groups[0].category)
    ensures forall j :: 0 <= j < |groups| ==> Less(c, groups[j].category)
  {
    forall j | 0 < j < |groups| ensures Less(c, groups[j].category) {
      LessTransitive(c, groups[0].category, groups[j].category);
    }
  }

  /** A key below every old key and below `c` is below every key once `c` is added. */
  lemma AboveAll(k: string, before: seq<Group>, c: string, after: seq<Group>)
    requires forall j :: 0 <= j < |before| ==> Less(k, before[j].category)
    requires Less(k, c)
    requires Keys(after) == Keys(before) + {c}
    ensures forall j :: 0 <= j < |after| ==> Less(k, after[j].category)
  {
    forall j | 0 <= j < |after| ensures Less(k, after[j].category) {
      assert after[j].category in Keys(after);
    }
  }

  /** Only the value under `c` changes, by `amount`; so does the sum of all
      values; and values that were all negative stay negative when a negative
      amount is added. */
  lemma AddToValues(groups: seq<Group>, c: string, amount: real)
    requires KeysSorted(groups)
    ensures forall d :: Lookup(AddTo(groups, c, amount), d) == Lookup(groups, d) + (if d == c then amount else 0.0)
    ensures SumTotals(AddTo(groups, c, amount)) == SumTotals(groups) + amount
    ensures amount < 0.0 && (forall i :: 0 <= i < |groups| ==> groups[i].total < 0.0) ==>
            forall i :: 0 <= i < |AddTo(groups, c, amount)| ==> AddTo(groups, c, amount)[i].total < 0.0
  {
    AddToLookup(groups, c, amount);
    AddToSum(groups, c, amount);
    if amount < 0.0 && (forall i :: 0 <= i < |groups| ==> groups[i].total < 0.0) {
      AddToNegative(groups, c, amount);
    }
  }

  /** A key below the first key of a sorted index is not a key. */
  lemma BelowFirstAbsent(groups: seq<Group>, c: string)
    requires groups != [] && KeysSorted(groups) && Less(c, groups[0].category)
    ensures Lookup(groups, c) == 0.0
  {
    BelowAll(c, groups);
    LessIrreflexive(c);
    LookupAbsent(groups, c);
  }

  lemma {:induction false} AddToLookup(groups: seq<Group>, c: string, amount: real)
    requires KeysSorted(groups)
    ensures forall d :: Lookup(AddTo(groups, c, amount), d) == Lookup(groups, d) + (if d == c then amount else 0.0)
  {
    if groups != [] {
      if groups[0].category == c {
        KeyNotInTail(groups);
      } else if !Less(c, groups[0].category) {
        KeysSortedTail(groups);
        AddToLookup(groups[1..], c, amount);
        var r := AddTo(groups, c, amount);
        assert r[0] == groups[0] && r[1..] == AddTo(groups[1..], c, amount);
        forall d ensures Lookup(r, d) == Lookup(groups, d) + (if d == c then amount else 0.0) {
          if d != groups[0].category {
            assert Lookup(r, d) == Lookup(r[1..], d);
          }
        }
      } else {
        BelowFirstAbsent(groups, c);
      }
    }
  }

  lemma {:induction false} AddToSum(groups: seq<Group>, c: string, amount: real)
    requires KeysSorted(groups)
    ensures SumTotals(AddTo(groups, c, amount)) == SumTotals(groups) + amount
  {
    if groups != [] && groups[0].category != c && !Less(c, groups[0].category) {
      KeysSortedTail(groups);
      AddToSum(groups[1..], c, amount);
      var r := AddTo(groups, c, amount);
      assert r[0] == groups[0] && r[1..] == AddTo(groups[1..], c, amount);
    }
  }

  lemma {:induction false} AddToNegative(groups: seq<Group>, c: string, amount: real)
    requires KeysSorted(groups)
    requires amount < 0.0 && forall i :: 0 <= i < |groups| ==> groups[i].total < 0.0
    ensures forall i :: 0 <= i < |AddTo(groups, c, amount)| ==> AddTo(groups, c, amount)[i].total < 0.0
  {
    var r := AddTo(groups, c, amount);
    if groups != [] && groups[0].category != c && !Less(c, groups[0].category) {
      KeysSortedTail(groups);
      assert forall i :: 0 <= i < |groups[1..]| ==> groups[1..][i] == groups[i + 1];
      AddToNegative(groups[1..], c, amount);
      assert r[0] == groups[0] && r[1..] == AddTo(groups[1..], c, amount);
      assert forall i :: 1 <= i < |r| ==> r[i] == r[1..][i - 1];
    } else if groups != [] && groups[0].category != c {
      assert forall i :: 1 <= i < |r| ==> r[i] == groups[i - 1];
    } else if groups != [] {
      assert forall i :: 1 <= i < |r| ==> r[i] == groups[i];
    }
  }

  lemma KeysCons(g: Group, groups: seq<Group>)
    ensures Keys([g] + groups) == {g.category} + Keys(groups)
  {
    var s := [g] + groups;
    forall c | c in Keys(s) ensures c in {g.category} + Keys(groups) {
      var i :| 0 <= i < |s| && s[i].category == c;
      if i > 0 {
        assert s[i] == groups[i - 1];
      }
    }
    forall c | c in Keys(groups) ensures c in Keys(s) {
      var i :| 0 <= i < |groups| && groups[i].category == c;
      assert s[i + 1] == groups[i];
    }
    assert s[0] == g;
  }

  /** With sorted keys, the first key does not occur again. */
  lemma KeyNotInTail(groups: seq<Group>)
    requires KeysSorted(groups) && groups != []
    ensures Lookup(groups[1..], groups[0].category) == 0.0
    ensures groups[0].category !in Keys(groups[1..])
  {
    LessIrreflexive(groups[0].category);
    KeysSortedTail(groups);
    LookupAbsent(groups[1..], groups[0].category);
  }

  lemma KeysSortedTail(groups: seq<Group>)
    requires KeysSorted(groups) && groups != []
    ensures KeysSorted(groups[1..])
    ensures forall j :: 0 <= j < |groups[1..]| ==> Less(groups[0].category, groups[1..][j].category)
  {
  }

  lemma {:induction false} LookupAbsent(groups: seq<Group>, c: string)
    requires forall j :: 0 <= j < |groups| ==> groups[j].category != c
    ensures Lookup(groups, c) == 0.0
  {
    if groups != [] {
      LookupAbsent(groups[1..], c);
    }
  }

  /** In a sorted index, looking a key up finds its own entry. */
  lemma {:induction false} LookupAt(groups: seq<Group>, i: int)
    requires KeysSorted(groups) && 0 <= i < |groups|
    ensures Lookup(groups, groups[i].category) == groups[i].total
  {
    if i > 0 {
      LessIrreflexive(groups[i].category);
      assert groups[0].category != groups[i].category;
      assert groups[1..][i - 1] == groups[i];
      LookupAt(groups[1..], i - 1);
    }
  }

  /** The rows of category `c`. */
  function InCategory(rows: seq<Entry>, c: string): seq<Entry> {
    if rows == [] then []
    else (if rows[0].category == c then [rows[0]] else []) + InCategory(rows[1..], c)
  }

  function Categories(rows: seq<Entry>): set<string> {
    set i | 0 <= i < |rows| :: rows[i].category
  }

  lemma CategoriesCons(e: Entry, rows: seq<Entry>)
    ensures Categories([e] + rows) == {e.category} + Categories(rows)
  {
    var s := [e] + rows;
    forall c | c in Categories(s) ensures c in {e.category} + Categories(rows) {
      var i :| 0 <= i < |s| && s[i].category == c;
      if i > 0 {
        assert s[i] == rows[i - 1];
      }
    }
    forall c | c in Categories(rows) ensures c in Categories(s) {
      var i :| 0 <= i < |rows| && rows[i].category == c;
      assert s[i + 1] == rows[i];
    }
    assert s[0] == e;
  }

  /** `groupby('categoria')['monto'].sum()`: one group per category present,
      in sorted order, holding the sum of that category's amounts. */
  function GroupSum(rows: seq<Entry>): (groups: seq<Group>)
    ensures KeysSorted(groups)
  {
    if rows == [] then []
    else AddTo(GroupSum(rows[1..]), rows[0].category, rows[0].amount)
  }

  /** The grouped Series has one key per category of the rows, under each
      key the sum of that category's amounts, and the same grand total; when
      every amount is negative so is every group's value. */
  lemma {:induction false} GroupSumSpec(rows: seq<Entry>)
    ensures Keys(GroupSum(rows)) == Categories(rows)
    ensures forall c :: Lookup(GroupSum(rows), c) == Total(InCategory(rows, c))
    ensures SumTotals(GroupSum(rows)) == Total(rows)
    ensures (forall i :: 0 <= i < |rows| ==> rows[i].amount < 0.0) ==>
            forall i :: 0 <= i < |GroupSum(rows)| ==> GroupSum(rows)[i].total < 0.0
  {
    if rows != [] {
      var rest := GroupSum(rows[1..]);
      GroupSumSpec(rows[1..]);
      assert rows == [rows[0]] + rows[1..];
      CategoriesCons(rows[0], rows[1..]);
      forall c ensures Total(InCategory(rows, c)) == Total(InCategory(rows[1..], c)) + (if c == rows[0].category then rows[0].amount else 0.0) {
        var h := if rows[0].category == c then [rows[0]] else [];
        TotalAppend(h, InCategory(rows[1..], c));
      }
      assert forall i :: 1 <= i < |rows| ==> rows[i] == rows[1..][i - 1];
      AddToValues(rest, rows[0].category, rows[0].amount);
    }
  }

  /** `.abs()` applied to every value of the Series. */
  function AbsTotals(groups: seq<Group>): (r: seq<Group>)
    ensures |r| == |groups|
    ensures forall i :: 0 <= i < |r| ==> r[i] == Group(groups[i].category, Abs(groups[i].total))
  {
    if groups == [] then [] else [Group(groups[0].category, Abs(groups[0].total))] + AbsTotals(groups[1..])
  }

  /** Reference definition: what category `c` spent, the sum of |amount|
      over its expense rows. */
  function CategoryExpense(rows: seq<Entry>, c: string): real {
    if rows == [] then 0.0
    else (if rows[0].amount < 0.0 && rows[0].category == c then -rows[0].amount else 0.0)
         + CategoryExpense(rows[1..], c)
  }

  /** `gastos_por_cat`. */
  function ExpenseByCategory(rows: seq<Entry>): seq<Group> {
    AbsTotals(GroupSum(Negatives(rows)))
  }

  lemma {:induction false} NegativesInCategory(rows: seq<Entry>, c: string)
    ensures Total(InCategory(Negatives(rows), c)) == -CategoryExpense(rows, c)
  {
    if rows != [] {
      NegativesInCategory(rows[1..], c);
      var neg := if rows[0].amount < 0.0 then [rows[0]] else [];
      InCategoryAppend(neg, Negatives(rows[1..]), c);
      var h := if rows[0].amount < 0.0 && rows[0].category == c then [rows[0]] else [];
      TotalAppend(h, InCategory(Negatives(rows[1..]), c));
    }
  }

  lemma {:induction false} InCategoryAppend(a: seq<Entry>, b: seq<Entry>, c: string)
    ensures InCategory(a + b, c) == InCategory(a, c) + InCategory(b, c)
  {
    if a == [] {
      assert a + b == b;
    } else {
      assert (a + b)[1..] == a[1..] + b;
      InCategoryAppend(a[1..], b, c);
      var h := if a[0].category == c then [a[0]] else [];
      assert InCategory(a + b, c) == h + (InCategory(a[1..], c) + InCategory(b, c));
      assert h + (InCategory(a[1..], c) + InCategory(b, c)) == (h + InCategory(a[1..], c)) + InCategory(b, c);
    }
  }

  /** The categories that have at least one expense row. */
  function ExpenseCategories(rows: seq<Entry>): set<string> {
    set i | 0 <= i < |rows| && rows[i].amount < 0.0 :: rows[i].category
  }

  lemma ExpenseCategoriesCons(rows: seq<Entry>)
    requires rows != []
    ensures ExpenseCategories(rows) ==
            (if rows[0].amount < 0.0 then {rows[0].category} else {}) + ExpenseCategories(rows[1..])
  {
    var tail := rows[1..];
    forall c | c in ExpenseCategories(rows)
      ensures c in (if rows[0].amount < 0.0 then {rows[0].category} else {}) + ExpenseCategories(tail)
    {
      var i :| 0 <= i < |rows| && rows[i].amount < 0.0 && rows[i].category == c;
      if i > 0 {
        assert rows[i] == tail[i - 1];
      }
    }
    forall c | c in ExpenseCategories(tail) ensures c in ExpenseCategories(rows) {
      var i :| 0 <= i < |tail| && tail[i].amount < 0.0 && tail[i].category == c;
      assert rows[i + 1] == tail[i];
    }
  }

  lemma {:induction false} NegativesCategories(rows: seq<Entry>)
    ensures Categories(Negatives(rows)) == ExpenseCategories(rows)
  {
    if rows != [] {
      NegativesCategories(rows[1..]);
      ExpenseCategoriesCons(rows);
      if rows[0].amount < 0.0 {
        CategoriesCons(rows[0], Negatives(rows[1..]));
      } else {
        assert Negatives(rows) == [] + Negatives(rows[1..]);
        assert Negatives(rows) == Negatives(rows[1..]);
      }
    }
  }

  /** Sums over the Series equal sums over its values after `abs`, for
      all-negative values. */
  lemma {:induction false} SumAbsTotals(groups: seq<Group>)
    requires forall i :: 0 <= i < |groups| ==> groups[i].total < 0.0
    ensures SumTotals(AbsTotals(groups)) == -SumTotals(groups)
  {
    if groups != [] {
      SumAbsTotals(groups[1..]);
      assert AbsTotals(groups)[1..] == AbsTotals(groups[1..]);
    }
  }

  /** The per-category expense Series: sorted by category, one entry for each
      category with at least one expense row and no other, each holding that
      category's positive spending, all together adding up to |gastos|. */
  lemma ExpenseByCategorySpec(rows: seq<Entry>)
    ensures KeysSorted(ExpenseByCategory(rows))
    ensures Keys(ExpenseByCategory(rows)) == ExpenseCategories(rows)
    ensures forall i :: 0 <= i < |ExpenseByCategory(rows)| ==>
            ExpenseByCategory(rows)[i].total == CategoryExpense(rows, ExpenseByCategory(rows)[i].category) &&
            ExpenseByCategory(rows)[i].total > 0.0
    ensures SumTotals(ExpenseByCategory(rows)) == Abs(Expense(rows))
  {
    var neg := Negatives(rows);
    var groups := GroupSum(neg);
    GroupSumSpec(neg);
    var r := ExpenseByCategory(rows);
    NegativesCategories(rows);
    assert Keys(r) == Keys(groups);
    forall i | 0 <= i < |r|
      ensures r[i].total == CategoryExpense(rows, r[i].category) && r[i].total > 0.0
    {
      LookupAt(groups, i);
      NegativesInCategory(rows, groups[i].category);
    }
    SumAbsTotals(groups);
  }

  /** `idxmax()`: the position of the first largest value; an empty Series
      has none (pandas raises). */
  function ArgMax(groups: seq<Group>): (k: nat)
    requires groups != []
    ensures k < |groups|
    ensures forall j :: 0 <= j < |groups| ==> groups[j].total <= groups[k].total
    ensures forall j :: 0 <= j < k ==> groups[j].total < groups[k].total
  {
    if |groups| == 1 then 0
    else
      var k := ArgMax(groups[..|groups| - 1]);
      if groups[|groups| - 1].total > groups[k].total then |groups| - 1 else k
  }

  /** `max()`: the largest value. */
  function MaxTotal(groups: seq<Group>): (m: real)
    requires groups != []
    ensures forall j :: 0 <= j < |groups| ==> groups[j].total <= m
    ensures exists j :: 0 <= j < |groups| && groups[j].total == m
  {
    if |groups| == 1 then groups[0].total
    else
      var m := MaxTotal(groups[1..]);
      assert forall j :: 1 <= j < |groups| ==> groups[j] == groups[1..][j - 1];
      if groups[0].total > m then groups[0].total else m
  }

  /** `monto_mayor` is the value at `categoria_mayor_gasto`; among equal
      largest values the one chosen has the smallest category name. */
  lemma TopCategory(groups: seq<Group>)
    requires groups != [] && KeysSorted(groups)
    ensures MaxTotal(groups) == groups[ArgMax(groups)].total
    ensures forall j :: 0 <= j < |groups| && groups[j].total == MaxTotal(groups) ==>
            j == ArgMax(groups) || Less(groups[ArgMax(groups)].category, groups[j].category)
  {
  }

  /** The three messages of the recommendation. */
  datatype Recommendation =
    | ReviewUncategorized
    | CutByFifth(category: string, amount: real, saving: real)
    | ReduceTop(category: string, amount: real)

  /** The `if`/`elif`/`else` on the top category. */
  function Recommend(top: string, amount: real): (r: Recommendation)
    ensures r.ReviewUncategorized? <==> top == "Otros"
    ensures r.CutByFifth? <==> top == "Entretenimiento"
    ensures r.ReduceTop? <==> top != "Otros" && top != "Entretenimiento"
    ensures !r.ReviewUncategorized? ==> r.category == top && r.amount == amount
    ensures r.CutByFifth? ==> r.saving * 5.0 == amount
  {
    if top == "Otros" then ReviewUncategorized
    else if top == "Entretenimiento" then CutByFifth(top, amount, amount * 0.2)
    else ReduceTop(top, amount)
  }
}
