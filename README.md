# FinIA Advisor: the analysis behind the dashboard

FinIA Advisor is a one-page Streamlit app (`streamlit_app.py`). A user uploads a CSV of bank
transactions with the columns `fecha`, `descripcion` and `monto`, and the app goes through these steps:

1. It normalises the header names and halts if a required column is missing.
2. It coerces dates and amounts, dropping every row where either fails to parse.
3. It assigns each description a category by keyword search over a fixed, ordered table.
4. It computes income, expense, balance and a 15% suggested saving.
5. It sums the expenses per category and picks the largest one.
6. It shows one of three recommendations for that category.

When nothing has been uploaded, the page shows a five-row sample table instead.

This project models that analysis in Dafny and proves properties of it. The modules are:

- `Table`: the rows before and after cleaning, and the categorised rows.
- `Text`: the string operations the page relies on. These are `str.lower`, `str.strip`, `str.capitalize`, substring search and Python's code-point order on strings.
- `Schema`: the header normalisation and the missing-column list.
- `Cleaning`: the two `dropna` passes.
- `Labels` and `Categories`: the `categorias` table and `categorizar`.
- `Aggregation`: the sums, the per-category group-by, `idxmax`/`max` and the recommendation.
- `Pipeline`: one whole pass, with the ways it can end.
- `Example`: the page's sample table carried through the whole pass.

## Behaviour worth knowing

- **Overlapping keywords.** The category loop stops at the first entry with a matching keyword. So a description holding both a streaming keyword and a keyword of an earlier entry goes to the earlier entry. For example, any description containing both "netflix" and "supermercado" is Supermercado (`Categories.SupermarketBeforeStreaming`). "netflix" and "spotify" never lead to Suscripciones (`Categories.StreamingIsEntertainment`).
- **The sample table.** For the sample shown before any upload, the largest expense is Supermercado (15000), ahead of Entretenimiento (8998). The recommendation for it is therefore the generic "reduce it" message (`Example.SampleReport`).
- **No expense rows.** When a table has no expense rows, including a table with no rows at all, `gastos_por_cat` is empty. `idxmax` then raises, and the `except` handler shows the error message after the metrics (`Pipeline.EmptyUpload`, `Pipeline.ReportFails`).
- **Ties.** `groupby` sorts the categories by code point, and `idxmax` returns the first maximum. So among equal largest expenses, the alphabetically smallest category is chosen (`Aggregation.TopCategory`).

## Model

| member | source | states |
|---|---|---|
| Text.Lower | streamlit_app.py:57 | `str.lower()` keeps the length, leaves no upper-case letter and changes only upper-case letters |
| Text.LowerIdempotent | streamlit_app.py:57 | lower-casing twice is lower-casing once |
| Text.Capitalize | streamlit_app.py:60 | `str.capitalize()` keeps the length and the lower-cased text, and upper-cases a lower-case first letter |
| Text.Strip | streamlit_app.py:29 | the result is the input minus leading and trailing whitespace, and has no whitespace at either end |
| Text.StripPadded | streamlit_app.py:29 | stripping whitespace off a word padded with whitespace gives back exactly the word |
| Text.StripNoUpper | streamlit_app.py:29 | stripping a string with no upper-case letter leaves none |
| Text.Contains | streamlit_app.py:59 | `sub in s` holds exactly when `sub` occurs in `s` at some index |
| Text.LessIrreflexive | streamlit_app.py:79 | no category name sorts before itself |
| Text.LessTransitive | streamlit_app.py:79 | the code-point order on names is transitive |
| Text.LessTotal | streamlit_app.py:79 | any two distinct names are ordered one way or the other |
| Schema.NormalizeHeader | streamlit_app.py:29 | a normalised header is the lower-cased header with only surrounding whitespace removed, and has no upper-case letter |
| Schema.NormalizeHeaderTrimmed | streamlit_app.py:29 | no whitespace is left at either end of a normalised header |
| Schema.NormalizeHeaders | streamlit_app.py:29 | the header list is normalised element by element, keeping its length |
| Schema.Absent | streamlit_app.py:32 | the missing list holds exactly the wanted names that are not columns, in the wanted order |
| Schema.MissingColumns | streamlit_app.py:29-35 | a required name is reported exactly when no normalised header equals it, in the order `fecha`, `descripcion`, `monto` |
| Schema.PaddedHeaderRecognised | streamlit_app.py:29-32 | a header that lower-cases to a required name is recognised whatever whitespace pads it |
| Schema.MissingAmountColumn | streamlit_app.py:29-35 | headers `Fecha` and ` descripcion ` halt with exactly `['monto']` |
| Cleaning.Dated | streamlit_app.py:38-39 | the date pass keeps exactly the rows with a date: each kept row has one and comes from the input, and every dated row is kept |
| Cleaning.DatedAppend | streamlit_app.py:38-39 | the date pass is an order-preserving filter: it distributes over concatenation |
| Cleaning.Clean | streamlit_app.py:38-43 | the two filtering passes produce the cleaned table |
| Cleaning.CleanedAppend | streamlit_app.py:38-43 | cleaning is an order-preserving filter: it distributes over concatenation |
| Cleaning.CleanedMembers | streamlit_app.py:38-43 | every row with a date and an amount is kept, and every kept row comes from such a row |
| Cleaning.CleanedAllParsed | streamlit_app.py:38-43 | when every row parses, cleaning drops nothing and keeps the order |
| Cleaning.CleanedAfterDated | streamlit_app.py:38-43 | filtering by amount after filtering by date keeps what one combined filter keeps |
| Categories.FirstMatchSpec | streamlit_app.py:58-61 | the search returns the capitalised name of the first entry with a keyword in the description, or "Otros" when none has one |
| Categories.Categorize | streamlit_app.py:56-61 | the early-return loop over the table computes the first-match category |
| Categories.DisplayNames | streamlit_app.py:46-60 | capitalising the seven table keys gives Supermercado, Transporte, Entretenimiento, Suscripciones, Salud, Hogar, Otros |
| Categories.CategoryAt | streamlit_app.py:56-61 | a description first matched by entry `i` gets display name `i` |
| Categories.CategoryIsFixedName | streamlit_app.py:56-61 | every category is one of the seven display names |
| Categories.OtrosNeverMatches | streamlit_app.py:53 | the keyword-less `otros` entry is never the first match |
| Categories.FallbackIffNoKeyword | streamlit_app.py:58-61 | the category is "Otros" exactly when no keyword of any entry occurs in the lower-cased description |
| Categories.CaseInsensitive | streamlit_app.py:57 | lower-casing or capitalising a description does not change its category |
| Categories.StreamingIsEntertainment | streamlit_app.py:47-60 | a description mentioning netflix or spotify is Supermercado, Transporte or Entretenimiento, and Entretenimiento unless an earlier entry matches |
| Categories.SupermarketBeforeStreaming | streamlit_app.py:47-60 | a description containing both "netflix" and "supermercado" is categorised Supermercado, because that entry comes first |
| Categories.SubscriptionsReachedOnlyWithoutStreaming | streamlit_app.py:49-60 | "Suscripciones" is given only to descriptions without netflix or spotify that mention disney, amazon prime or youtube premium |
| Aggregation.TotalAppend | streamlit_app.py:66-67 | the sum of a concatenation is the sum of the sums |
| Aggregation.FiltersComplete | streamlit_app.py:66-67 | the `monto > 0` and `monto < 0` selections keep every row of their sign |
| Aggregation.Income | streamlit_app.py:66 | income is non-negative and zero exactly when no amount is positive |
| Aggregation.Expense | streamlit_app.py:67 | expense is non-positive and zero exactly when no amount is negative |
| Aggregation.BalanceIsTotal | streamlit_app.py:68 | the balance is the sum of every amount |
| Aggregation.SumsAppend | streamlit_app.py:66-67 | income and expense of concatenated tables add up |
| Aggregation.SuggestedSavings | streamlit_app.py:69 | the suggested saving is non-negative, zero exactly when the expense is zero, and at most the expense's magnitude |
| Aggregation.AddTo | streamlit_app.py:79 | adding to a group keeps the index sorted and adds the category to the index |
| Aggregation.AddToValues | streamlit_app.py:79 | adding `amount` to category `c` raises only `c`'s value, by `amount`, and the grand total by `amount` |
| Aggregation.GroupSumSpec | streamlit_app.py:79 | the group-by index is the set of categories, each value is the sum of that category's amounts, and the values add up to the column total |
| Aggregation.AbsTotals | streamlit_app.py:79 | `.abs()` keeps the index and replaces each value by its magnitude |
| Aggregation.ExpenseByCategorySpec | streamlit_app.py:79 | `gastos_por_cat` is sorted, indexed by the categories of expense rows, each value positive and equal to that category's expense, and they add up to the total expense |
| Aggregation.ArgMax | streamlit_app.py:88 | `idxmax` returns the first position holding the largest value |
| Aggregation.MaxTotal | streamlit_app.py:89 | `max` is a value of the series and no value exceeds it |
| Aggregation.TopCategory | streamlit_app.py:88-89 | the largest value sits at the top category, and among equal largest values the top category has the smallest name |
| Aggregation.Recommend | streamlit_app.py:91-96 | "Otros" gets the review advice, Entretenimiento the 20% cut with saving one fifth of the amount, anything else the generic advice, each naming the category and amount |
| Pipeline.Tagged | streamlit_app.py:63 | categorising succeeds exactly when every description is text, and then categorises row by row |
| Pipeline.Tag | streamlit_app.py:63 | the `apply` loop computes the categorised table or fails on the first non-text description |
| Pipeline.Summarize | streamlit_app.py:66-96 | the metrics, per-category expense, top category and recommendation are those of the report |
| Pipeline.Analyze | streamlit_app.py:29-96 | the page's steps in order compute the pass's outcome |
| Pipeline.TaggedCleaned | streamlit_app.py:38-63 | categorising the cleaned table succeeds exactly when every row that parsed has a text description |
| Pipeline.TaggedExpenses | streamlit_app.py:38-67 | the categorised table has an expense row exactly when a row that parsed has a negative amount |
| Pipeline.ReportFails | streamlit_app.py:79-88 | `idxmax` fails exactly when the table has no expense row |
| Pipeline.OutcomeCases | streamlit_app.py:29-103 | the pass halts on a missing column, else errors on a non-text description, else errors for lack of expenses, else completes, each exactly in its case |
| Pipeline.ReportFacts | streamlit_app.py:66-96 | a completed report's balance, signs, 15% saving, category sum, largest value, top category and recommendation are consistent with the table |
| Pipeline.TopIsFixedName | streamlit_app.py:56-88 | the top category of a completed report is one of the seven display names |
| Pipeline.AnalysedFacts | streamlit_app.py:29-96 | a completed pass is the report on the categorised upload and names a fixed category as top |
| Pipeline.EmptyUpload | streamlit_app.py:38-88 | an upload with the right columns and no rows shows zero metrics and then fails at `idxmax` |
| Pipeline.EmptyReport | streamlit_app.py:66-88 | the report on an empty table is the `idxmax` failure with all-zero metrics |
| Pipeline.UnparsedRowIgnored | streamlit_app.py:38-43 | appending a row whose date or amount does not parse changes nothing in the outcome |
| Example.SupermercadoDiaCategory | streamlit_app.py:109 | "Supermercado Dia" is categorised Supermercado |
| Example.UberCategory | streamlit_app.py:109 | "Uber al trabajo" is categorised Transporte |
| Example.NetflixCategory | streamlit_app.py:109 | "Netflix mensual" is categorised Entretenimiento |
| Example.SpotifyCategory | streamlit_app.py:109 | "Spotify" is categorised Entretenimiento |
| Example.SampleHeadersAccepted | streamlit_app.py:107-111 | the sample's headers pass the column check |
| Example.SampleCleaned | streamlit_app.py:107-111 | cleaning keeps all five sample rows in order |
| Example.SampleTagged | streamlit_app.py:107-111 | the sample rows are categorised Supermercado, Transporte, Entretenimiento, Entretenimiento after the salary |
| Example.SampleSums | streamlit_app.py:107-111 | the sample's income is 500000 and its expense -27198 |
| Example.SampleGroups | streamlit_app.py:107-111 | the sample's expense per category is Entretenimiento 8998, Supermercado 15000, Transporte 3200 |
| Example.SampleTop | streamlit_app.py:88-89 | on the sample's series `idxmax` is Supermercado and `max` is 15000 |
| Example.SampleReport | streamlit_app.py:107-111 | the sample report shows balance 472802, saving 4079.7, top Supermercado at 15000 and the generic advice |
| Example.SampleAnalysis | streamlit_app.py:107-111 | the whole pass over the sample file completes with that report |

## Left out

- The Streamlit page itself is not modelled: the uploader, titles, column listing, metric formatting (`:,.0f`), the plotly pie chart, the success and error boxes, and both download buttons. These are display and I/O, and the model returns the values they show.
- `pd.read_csv` is not modelled. A file that fails to parse as CSV, duplicate or extra columns, and cell types beyond "text or not text" are outside the model.
- The parsing done by `pd.to_datetime` and `pd.to_numeric` is not modelled: each coerced cell is given as parsed or not parsed. This includes which date formats are accepted and how mixed formats are inferred.
- Amounts are exact rationals (`real`). Floating-point rounding in the sums, in `* 0.15` and in `* 0.2` is not modelled.
- Text.Lower: lower-cases ASCII and Latin-1 letters only. The rest of Unicode's case mappings, including letters whose lower-case form has a different length, are not modelled.
- Text.Capitalize: uses the same letter range as `Lower`, and its contract states the lower-cased text and the first letter rather than every character.
- The generic `except Exception` handler is modelled only for the two exceptions the core itself can raise: a non-text description in `categorizar` and `idxmax` on an empty series. Any other failure is not modelled.
- The recommendation is a value carrying the category, the amount and, for Entretenimiento, the saving. The formatted Spanish sentences are not modelled.
- Example.SampleAnalysis: leaves the category of the salary row as `CategoryOf("Sueldo enero")` without evaluating it, because that row is income and takes no part in any figure the page derives.
