/** The values the dashboard works on: one CSV row before and after cleaning,
    and a cleaned row once it carries its category. */
module Table {

  datatype Option<T> = None | Some(value: T)

  /** A calendar date, as `pd.to_datetime` produces it. */
  datatype Date = Date(year: int, month: int, day: int)

  /** A `descripcion` cell: text, or something `str.lower()` cannot be called
      on (an empty cell, which pandas reads as NaN, or a number). */
  datatype Cell = Str(value: string) | NotStr

  /** A row of the uploaded table after the `fecha` and `monto` columns were
      coerced: `None` where the parser gave NaT or NaN. */
  datatype RawRow = RawRow(date: Option<Date>, description: Cell, amount: Option<real>)

  /** A row that survived both `dropna` filters. */
  datatype Row = Row(date: Date, description: Cell, amount: real)

  /** A cleaned row with the `categoria` column added. */
  datatype Entry = Entry(date: Date, description: string, amount: real, category: string)
}
