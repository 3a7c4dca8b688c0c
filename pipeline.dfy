/** One pass of the page over an uploaded table: column check, cleaning,
    categorisation, the four metrics, the per-category expense and the
    recommendation, with the ways that pass can end early. */
module Pipeline {
  import opened Table
  import opened Schema
  import opened Cleaning
  import opened Categories
  import opened Aggregation

  /** The four metrics: `ingresos`, `gastos`, `balance`, `ahorro_potencial`. */
  datatype Totals = Totals(income: real, expense: real, balance: real, savings: real)

  /** How the pass ends. `DescriptionError` and `NoExpensesError` are the two
      exceptions the page's handler turns into its single error message. */
  datatype Outcome =
    | SchemaError(missing: seq<string>)
    | DescriptionError
    | NoExpensesError(totals: Totals)
    | Analysed(totals: Totals, table: seq<Entry>, byCategory: seq<Group>,
               top: string, topAmount: real, recommendation: Recommendation)

  function TagRow(row: Row): Entry
    requires row.description.Str?
  {
    Entry(row.date, row.description.value, row.amount, CategoryOf(row.description.value))
  }

  /** `df['categoria'] = df['descripcion'].apply(categorizar)`: every row gets
      its category, unless a description is not text, which raises. */
  function Tagged(rows: seq<Row>): (table: Option<seq<Entry>>)
    ensures table.Some? <==> forall i :: 0 <= i < |rows| ==> rows[i].description.Str?
    ensures table.Some? ==>
      |table.value| == |rows| &&
      forall i :: 0 <= i < |rows| ==> table.value[i] == TagRow(rows[i])
  {
    if rows == [] then Some([])
    else
      var init := Tagged(rows[..|rows| - 1]);
      var last := rows[|rows| - 1];
      assert forall i :: 0 <= i < |rows| - 1 ==> rows[..|rows| - 1][i] == rows[i];
      if init.None? || last.description.NotStr? then None
      else Some(init.value + [TagRow(last)])
  }

  /** The `apply` loop, calling `categorizar` on each description in turn. */
  method Tag(rows: seq<Row>) returns (table: Option<seq<Entry>>)
    ensures table == Tagged(rows)
  {
    var entries: seq<Entry> := [];
    for i := 0 to |rows|
      invariant Tagged(rows[..i]) == Some(entries)
    {
      assert rows[..i + 1][..i] == rows[..i];
      match rows[i].description
      case NotStr =>
        return None;
      case Str(text) =>
        var categoria := Categorize(text);
        entries := entries + [Entry(rows[i].date, text, rows[i].amount, categoria)];
    }
    assert rows[..|rows|] == rows;
    return Some(entries);
  }

  function Summary(table: seq<Entry>): Totals {
    var income := Income(table);
    var expense := Expense(table);
    Totals(income, expense, income + expense, SuggestedSavings(expense))
  }

  /** What the page computes from the categorised table: the metrics, then
      either the failing `idxmax` or the top category and its recommendation. */
  function Report(table: seq<Entry>): Outcome {
    var byCategory := ExpenseByCategory(table);
    if byCategory == [] then NoExpensesError(Summary(table))
    else
      var top := byCategory[ArgMax(byCategory)].category;
      var amount := MaxTotal(byCategory);
      Analysed(Summary(table), table, byCategory, top, amount, Recommend(top, amount))
  }

  /** The whole pass as one value. */
  function Analysis(headers: seq<string>, raw: seq<RawRow>): Outcome {
    var missing := MissingColumns(headers);
    if missing != [] then SchemaError(missing)
    else
      match Tagged(Cleaned(raw))
      case None => DescriptionError
      case Some(table) => Report(table)
  }

  /** The page's steps in order, each replacing the table of the one before. */
  method Analyze(headers: seq<string>, raw: seq<RawRow>) returns (out: Outcome)
    ensures out == Analysis(headers, raw)
  {
    var columns := NormalizeHeaders(headers);
    var missing := Absent(Required, columns);
    assert missing == MissingColumns(headers);
    if missing != [] {
      return SchemaError(missing);
    }
    var rows := Clean(raw);
    var tagged := Tag(rows);
    if tagged.None? {
      return DescriptionError;
    }
    out := Summarize(tagged.value);
  }

  /** Metrics, per-category expense, top category and recommendation. */
  method Summarize(table: seq<Entry>) returns (out: Outcome)
    ensures out == Report(table)
  {
    var income := Income(table);
    var expense := Expense(table);
    var balance := income + expense;
    var savings := SuggestedSavings(expense);
    var totals := Totals(income, expense, balance, savings);
    assert totals == Summary(table);
    var byCategory := ExpenseByCategory(table);
    if byCategory == [] {
      return NoExpensesError(totals);
    }
    var top := byCategory[ArgMax(byCategory)].category;
    var amount := MaxTotal(byCategory);
    var recommendation := Recommend(top, amount);
    return Analysed(totals, table, byCategory, top, amount, recommendation);
  }

  /** Categorising the cleaned table succeeds exactly when every row that
      parsed has a text description. */
  lemma TaggedCleaned(raw: seq<RawRow>)
    ensures Tagged(Cleaned(raw)).Some? <==>
      forall i :: 0 <= i < |raw| && Parsed(raw[i]) ==> raw[i].description.Str?
  {
    var rows := Cleaned(raw);
    CleanedMembers(raw);
    if forall i :: 0 <= i < |raw| && Parsed(raw[i]) ==> raw[i].description.Str? {
      forall j | 0 <= j < |rows| ensures rows[j].description.Str? {
        assert rows[j] in rows;
      }
    } else {
      var i :| 0 <= i < |raw| && Parsed(raw[i]) && raw[i].description.NotStr?;
      var j :| 0 <= j < |rows| && rows[j] == Convert(raw[i]);
    }
  }

  /** The categorised table has an expense row exactly when a row that parsed
      has a negative amount. */
  lemma TaggedExpenses(raw: seq<RawRow>)
    requires Tagged(Cleaned(raw)).Some?
    ensures (forall j :: 0 <= j < |Tagged(Cleaned(raw)).value| ==> Tagged(Cleaned(raw)).value[j].amount >= 0.0) <==>
      forall i :: 0 <= i < |raw| && Parsed(raw[i]) ==> raw[i].amount.value >= 0.0
  {
    var rows := Cleaned(raw);
    var table := Tagged(rows).value;
    CleanedMembers(raw);
    if forall i :: 0 <= i < |raw| && Parsed(raw[i]) ==> raw[i].amount.value >= 0.0 {
      forall j | 0 <= j < |table| ensures table[j].amount >= 0.0 {
        assert rows[j] in rows;
      }
    } else {
      var i :| 0 <= i < |raw| && Parsed(raw[i]) && raw[i].amount.value < 0.0;
      var j :| 0 <= j < |rows| && rows[j] == Convert(raw[i]);
      assert table[j].amount < 0.0;
    }
  }

  /** `idxmax` fails exactly when the table has no expense row. */
  lemma ReportFails(table: seq<Entry>)
    ensures Report(table).NoExpensesError? <==> forall j :: 0 <= j < |table| ==> table[j].amount >= 0.0
  {
    ExpenseByCategorySpec(table);
    var byCategory := ExpenseByCategory(table);
    if forall j :: 0 <= j < |table| ==> table[j].amount >= 0.0 {
      assert ExpenseCategories(table) == {};
    } else {
      var j :| 0 <= j < |table| && table[j].amount < 0.0;
      assert table[j].category in ExpenseCategories(table);
    }
  }

  /** Which way the pass ends: a missing column halts it; otherwise a parsed
      row whose description is not text makes categorising raise; otherwise
      the lack of any parsed expense row makes `idxmax` raise; otherwise the
      full analysis is shown. */
  lemma OutcomeCases(headers: seq<string>, raw: seq<RawRow>)
    ensures Analysis(headers, raw).SchemaError? <==> MissingColumns(headers) != []
    ensures Analysis(headers, raw).DescriptionError? <==>
      MissingColumns(headers) == [] &&
      exists i :: 0 <= i < |raw| && Parsed(raw[i]) && raw[i].description.NotStr?
    ensures Analysis(headers, raw).NoExpensesError? <==>
      MissingColumns(headers) == [] &&
      (forall i :: 0 <= i < |raw| && Parsed(raw[i]) ==> raw[i].description.Str?) &&
      (forall i :: 0 <= i < |raw| && Parsed(raw[i]) ==> raw[i].amount.value >= 0.0)
  {
    TaggedCleaned(raw);
    var tagged := Tagged(Cleaned(raw));
    if tagged.Some? {
      TaggedExpenses(raw);
      ReportFails(tagged.value);
    }
  }

  /** What a completed report shows: the balance is the sum of every
      amount, the metrics have their signs, the savings are 15% of the
      expense, the category values add up to the expense, the top value is
      the largest, belongs to the top category and is positive, the top
      category is that of an expense row, and the recommendation follows it. */
  lemma ReportFacts(table: seq<Entry>)
    requires Report(table).Analysed?
    ensures var out := Report(table);
      out.table == table &&
      out.totals.balance == Total(table) &&
      out.totals.income >= 0.0 && out.totals.expense < 0.0 &&
      out.totals.savings == -out.totals.expense * 0.15 &&
      SumTotals(out.byCategory) == -out.totals.expense &&
      (forall j :: 0 <= j < |out.byCategory| ==> out.byCategory[j].total <= out.topAmount) &&
      out.topAmount == CategoryExpense(table, out.top) && out.topAmount > 0.0 &&
      (exists j :: 0 <= j < |table| && table[j].amount < 0.0 && table[j].category == out.top) &&
      (out.recommendation.ReviewUncategorized? <==> out.top == "Otros") &&
      (out.recommendation.CutByFifth? <==> out.top == "Entretenimiento")
  {
    var byCategory := ExpenseByCategory(table);
    BalanceIsTotal(table);
    ExpenseByCategorySpec(table);
    TopCategory(byCategory);
    var k := ArgMax(byCategory);
    assert byCategory[k].category in Keys(byCategory);
  }

  /** The top category of a report on a categorised upload is one of the
      fixed names. */
  lemma TopIsFixedName(raw: seq<RawRow>)
    requires Tagged(Cleaned(raw)).Some?
    requires Report(Tagged(Cleaned(raw)).value).Analysed?
    ensures Report(Tagged(Cleaned(raw)).value).top in Display
  {
    var rows := Cleaned(raw);
    var table := Tagged(rows).value;
    ReportFacts(table);
    var top := Report(table).top;
    var j :| 0 <= j < |table| && table[j].amount < 0.0 && table[j].category == top;
    assert rows[j].description.Str?;
    CategoryIsFixedName(rows[j].description.value);
  }

  /** A completed analysis is the report on the categorised upload, and its
      top category is one of the fixed names. */
  lemma AnalysedFacts(headers: seq<string>, raw: seq<RawRow>)
    requires Analysis(headers, raw).Analysed?
    ensures Tagged(Cleaned(raw)).Some?
    ensures Analysis(headers, raw) == Report(Tagged(Cleaned(raw)).value)
    ensures Analysis(headers, raw).top in Display
  {
    assert MissingColumns(headers) == [];
    TopIsFixedName(raw);
  }

  /** An upload with the right columns and no rows shows zero metrics and
      then fails at `idxmax`. */
  lemma EmptyUpload(headers: seq<string>)
    requires MissingColumns(headers) == []
    ensures Analysis(headers, []) == NoExpensesError(Totals(0.0, 0.0, 0.0, 0.0))
  {
    var rows: seq<RawRow> := [];
    assert Cleaned(rows) == [] && Tagged([]) == Some([]);
    EmptyReport([]);
  }

  lemma EmptyReport(table: seq<Entry>)
    requires table == []
    ensures Report(table) == NoExpensesError(Totals(0.0, 0.0, 0.0, 0.0))
  {
    assert ExpenseByCategory(table) == [];
  }

  /** A row whose date or amount did not parse changes nothing. */
  lemma UnparsedRowIgnored(headers: seq<string>, raw: seq<RawRow>, r: RawRow)
    requires !Parsed(r)
    ensures Analysis(headers, raw + [r]) == Analysis(headers, raw)
  {
    CleanedAppend(raw, [r]);
    assert Cleaned([r]) == Cleaned([]) + [];
    assert Cleaned(raw + [r]) == Cleaned(raw);
  }
}
