/** The sample table the page offers before anything is uploaded, carried
    through the model: the four expense rows get their categories, and the
    analysis shows the metrics, the per-category expense, the top category
    and its recommendation. */
module Example {
  import opened Text
  import opened Table
  import opened Schema
  import opened Cleaning
  import opened Categories
  import opened Aggregation
  import opened Pipeline

  /** A character of `sub` that `s` lacks keeps `sub` out of `s`. */
  lemma AbsentChar(s: string, sub: string, k: nat)
    requires k < |sub| && sub[k] !in s
    ensures !Contains(s, sub)
  {
    forall i: nat ensures !OccursAt(s, sub, i) {
      if i + |sub| <= |s| {
        assert s[i..i + |sub|][k] == s[i + k];
      }
    }
  }

  lemma Present(s: string, sub: string, i: nat)
    requires OccursAt(s, sub, i)
    ensures Contains(s, sub)
  {
  }

  /** The one 'a' of "netflix mensual" sits too near the end for "nafta",
      whose second letter is an 'a', to fit around it. */
  lemma NetflixLacksNafta(d: string)
    requires d == "netflix mensual"
    ensures !Contains(d, "nafta")
  {
    var front := d[..12];
    assert front == "netflix mens";
    assert 'a' !in front;
    forall i: nat ensures !OccursAt(d, "nafta", i) {
      if i + 5 <= |d| {
        assert d[i..i + 5][1] == d[i + 1] == front[i + 1];
      }
    }
  }

  lemma SupermercadoKeywords()
    ensures Rules[0].keywords == ["supermercado", "mercado", "walmart", "coto", "carrefour", "dia", "jumbo"]
  {
  }

  lemma TransporteKeywords()
    ensures Rules[1].keywords == ["uber", "cabify", "subte", "colectivo", "nafta", "estacionamiento", "peaje"]
  {
  }

  // Characters absent from "uber al trabajo".
  lemma UberLacksSupermercado(d: string) requires d == "uber al trabajo" ensures !Contains(d, "supermercado") { AbsentChar(d, "supermercado", 0); }
  lemma UberLacksMercado(d: string) requires d == "uber al trabajo" ensures !Contains(d, "mercado") { AbsentChar(d, "mercado", 0); }
  lemma UberLacksWalmart(d: string) requires d == "uber al trabajo" ensures !Contains(d, "walmart") { AbsentChar(d, "walmart", 0); }
  lemma UberLacksCoto(d: string) requires d == "uber al trabajo" ensures !Contains(d, "coto") { AbsentChar(d, "coto", 0); }
  lemma UberLacksCarrefour(d: string) requires d == "uber al trabajo" ensures !Contains(d, "carrefour") { AbsentChar(d, "carrefour", 0); }
  lemma UberLacksDia(d: string) requires d == "uber al trabajo" ensures !Contains(d, "dia") { AbsentChar(d, "dia", 0); }
  lemma UberLacksJumbo(d: string) requires d == "uber al trabajo" ensures !Contains(d, "jumbo") { AbsentChar(d, "jumbo", 2); }

  lemma UberMissesSupermercado(d: string)
    requires d == "uber al trabajo"
    ensures !AnyKeyword(Rules[0].keywords, d)
  {
    SupermercadoKeywords();
    var keywords := Rules[0].keywords;
    forall k | 0 <= k < |keywords| ensures !Contains(d, keywords[k]) {
      if k == 0 { UberLacksSupermercado(d); }
      else if k == 1 { UberLacksMercado(d); }
      else if k == 2 { UberLacksWalmart(d); }
      else if k == 3 { UberLacksCoto(d); }
      else if k == 4 { UberLacksCarrefour(d); }
      else if k == 5 { UberLacksDia(d); }
      else { UberLacksJumbo(d); }
    }
  }

  // Characters absent from "netflix mensual".
  lemma NetflixLacksSupermercado(d: string) requires d == "netflix mensual" ensures !Contains(d, "supermercado") { AbsentChar(d, "supermercado", 2); }
  lemma NetflixLacksMercado(d: string) requires d == "netflix mensual" ensures !Contains(d, "mercado") { AbsentChar(d, "mercado", 2); }
  lemma NetflixLacksWalmart(d: string) requires d == "netflix mensual" ensures !Contains(d, "walmart") { AbsentChar(d, "walmart", 0); }
  lemma NetflixLacksCoto(d: string) requires d == "netflix mensual" ensures !Contains(d, "coto") { AbsentChar(d, "coto", 0); }
  lemma NetflixLacksCarrefour(d: string) requires d == "netflix mensual" ensures !Contains(d, "carrefour") { AbsentChar(d, "carrefour", 0); }
  lemma NetflixLacksDia(d: string) requires d == "netflix mensual" ensures !Contains(d, "dia") { AbsentChar(d, "dia", 0); }
  lemma NetflixLacksJumbo(d: string) requires d == "netflix mensual" ensures !Contains(d, "jumbo") { AbsentChar(d, "jumbo", 0); }
  lemma NetflixLacksUber(d: string) requires d == "netflix mensual" ensures !Contains(d, "uber") { AbsentChar(d, "uber", 1); }
  lemma NetflixLacksCabify(d: string) requires d == "netflix mensual" ensures !Contains(d, "cabify") { AbsentChar(d, "cabify", 0); }
  lemma NetflixLacksSubte(d: string) requires d == "netflix mensual" ensures !Contains(d, "subte") { AbsentChar(d, "subte", 2); }
  lemma NetflixLacksColectivo(d: string) requires d == "netflix mensual" ensures !Contains(d, "colectivo") { AbsentChar(d, "colectivo", 0); }
  lemma NetflixLacksEstacionamiento(d: string) requires d == "netflix mensual" ensures !Contains(d, "estacionamiento") { AbsentChar(d, "estacionamiento", 4); }
  lemma NetflixLacksPeaje(d: string) requires d == "netflix mensual" ensures !Contains(d, "peaje") { AbsentChar(d, "peaje", 0); }

  lemma NetflixMissesSupermercado(d: string)
    requires d == "netflix mensual"
    ensures !AnyKeyword(Rules[0].keywords, d)
  {
    SupermercadoKeywords();
    var keywords := Rules[0].keywords;
    forall k | 0 <= k < |keywords| ensures !Contains(d, keywords[k]) {
      if k == 0 { NetflixLacksSupermercado(d); }
      else if k == 1 { NetflixLacksMercado(d); }
      else if k == 2 { NetflixLacksWalmart(d); }
      else if k == 3 { NetflixLacksCoto(d); }
      else if k == 4 { NetflixLacksCarrefour(d); }
      else if k == 5 { NetflixLacksDia(d); }
      else { NetflixLacksJumbo(d); }
    }
  }

  lemma NetflixMissesTransporte(d: string)
    requires d == "netflix mensual"
    ensures !AnyKeyword(Rules[1].keywords, d)
  {
    TransporteKeywords();
    var keywords := Rules[1].keywords;
    forall k | 0 <= k < |keywords| ensures !Contains(d, keywords[k]) {
      if k == 0 { NetflixLacksUber(d); }
      else if k == 1 { NetflixLacksCabify(d); }
      else if k == 2 { NetflixLacksSubte(d); }
      else if k == 3 { NetflixLacksColectivo(d); }
      else if k == 4 { NetflixLacksNafta(d); }
      else if k == 5 { NetflixLacksEstacionamiento(d); }
      else { NetflixLacksPeaje(d); }
    }
  }

  // Characters absent from "spotify".
  lemma SpotifyLacksSupermercado(d: string) requires d == "spotify" ensures !Contains(d, "supermercado") { AbsentChar(d, "supermercado", 1); }
  lemma SpotifyLacksMercado(d: string) requires d == "spotify" ensures !Contains(d, "mercado") { AbsentChar(d, "mercado", 0); }
  lemma SpotifyLacksWalmart(d: string) requires d == "spotify" ensures !Contains(d, "walmart") { AbsentChar(d, "walmart", 0); }
  lemma SpotifyLacksCoto(d: string) requires d == "spotify" ensures !Contains(d, "coto") { AbsentChar(d, "coto", 0); }
  lemma SpotifyLacksCarrefour(d: string) requires d == "spotify" ensures !Contains(d, "carrefour") { AbsentChar(d, "carrefour", 0); }
  lemma SpotifyLacksDia(d: string) requires d == "spotify" ensures !Contains(d, "dia") { AbsentChar(d, "dia", 0); }
  lemma SpotifyLacksJumbo(d: string) requires d == "spotify" ensures !Contains(d, "jumbo") { AbsentChar(d, "jumbo", 0); }
  lemma SpotifyLacksUber(d: string) requires d == "spotify" ensures !Contains(d, "uber") { AbsentChar(d, "uber", 0); }
  lemma SpotifyLacksCabify(d: string) requires d == "spotify" ensures !Contains(d, "cabify") { AbsentChar(d, "cabify", 0); }
  lemma SpotifyLacksSubte(d: string) requires d == "spotify" ensures !Contains(d, "subte") { AbsentChar(d, "subte", 1); }
  lemma SpotifyLacksColectivo(d: string) requires d == "spotify" ensures !Contains(d, "colectivo") { AbsentChar(d, "colectivo", 0); }
  lemma SpotifyLacksNafta(d: string) requires d == "spotify" ensures !Contains(d, "nafta") { AbsentChar(d, "nafta", 0); }
  lemma SpotifyLacksEstacionamiento(d: string) requires d == "spotify" ensures !Contains(d, "estacionamiento") { AbsentChar(d, "estacionamiento", 0); }
  lemma SpotifyLacksPeaje(d: string) requires d == "spotify" ensures !Contains(d, "peaje") { AbsentChar(d, "peaje", 1); }

  lemma SpotifyMissesSupermercado(d: string)
    requires d == "spotify"
    ensures !AnyKeyword(Rules[0].keywords, d)
  {
    SupermercadoKeywords();
    var keywords := Rules[0].keywords;
    forall k | 0 <= k < |keywords| ensures !Contains(d, keywords[k]) {
      if k == 0 { SpotifyLacksSupermercado(d); }
      else if k == 1 { SpotifyLacksMercado(d); }
      else if k == 2 { SpotifyLacksWalmart(d); }
      else if k == 3 { SpotifyLacksCoto(d); }
      else if k == 4 { SpotifyLacksCarrefour(d); }
      else if k == 5 { SpotifyLacksDia(d); }
      else { SpotifyLacksJumbo(d); }
    }
  }

  lemma SpotifyMissesTransporte(d: string)
    requires d == "spotify"
    ensures !AnyKeyword(Rules[1].keywords, d)
  {
    TransporteKeywords();
    var keywords := Rules[1].keywords;
    forall k | 0 <= k < |keywords| ensures !Contains(d, keywords[k]) {
      if k == 0 { SpotifyLacksUber(d); }
      else if k == 1 { SpotifyLacksCabify(d); }
      else if k == 2 { SpotifyLacksSubte(d); }
      else if k == 3 { SpotifyLacksColectivo(d); }
      else if k == 4 { SpotifyLacksNafta(d); }
      else if k == 5 { SpotifyLacksEstacionamiento(d); }
      else { SpotifyLacksPeaje(d); }
    }
  }

  lemma LowerSupermercadoDia() ensures Lower("Supermercado Dia") == "supermercado dia" { }

  lemma SupermercadoDiaHasSupermercado(d: string)
    requires d == "supermercado dia"
    ensures Contains(d, "supermercado")
  {
    assert d[..12] == "supermercado";
    Present(d, "supermercado", 0);
  }

  /** "Supermercado Dia" is categorised as "Supermercado". */
  lemma SupermercadoDiaCategory()
    ensures CategoryOf("Supermercado Dia") == "Supermercado"
  {
    LowerSupermercadoDia();
    var d := Lower("Supermercado Dia");
    SupermercadoDiaHasSupermercado(d);
    assert Rules[0].keywords[0] == "supermercado";
    assert FirstMatchAt(Rules, d, 0);
    CategoryAt("Supermercado Dia", 0);
  }

  lemma LowerUber() ensures Lower("Uber al trabajo") == "uber al trabajo" { }

  lemma UberHasUber(d: string)
    requires d == "uber al trabajo"
    ensures Contains(d, "uber")
  {
    assert d[..4] == "uber";
    Present(d, "uber", 0);
  }

  /** "Uber al trabajo" is categorised as "Transporte". */
  lemma UberCategory()
    ensures CategoryOf("Uber al trabajo") == "Transporte"
  {
    LowerUber();
    var d := Lower("Uber al trabajo");
    UberMissesSupermercado(d);
    UberHasUber(d);
    assert Rules[1].keywords[0] == "uber";
    assert FirstMatchAt(Rules, d, 1);
    CategoryAt("Uber al trabajo", 1);
  }

  lemma LowerNetflix() ensures Lower("Netflix mensual") == "netflix mensual" { }

  lemma NetflixHasNetflix(d: string)
    requires d == "netflix mensual"
    ensures Contains(d, "netflix")
  {
    assert d[..7] == "netflix";
    Present(d, "netflix", 0);
  }

  /** "Netflix mensual" is categorised as "Entretenimiento". */
  lemma NetflixCategory()
    ensures CategoryOf("Netflix mensual") == "Entretenimiento"
  {
    LowerNetflix();
    var d := Lower("Netflix mensual");
    NetflixMissesSupermercado(d);
    NetflixMissesTransporte(d);
    NetflixHasNetflix(d);
    assert Rules[2].keywords[0] == "netflix";
    assert FirstMatchAt(Rules, d, 2);
    CategoryAt("Netflix mensual", 2);
  }

  lemma LowerSpotify() ensures Lower("Spotify") == "spotify" { }

  lemma SpotifyHasSpotify(d: string)
    requires d == "spotify"
    ensures Contains(d, "spotify")
  {
    assert d[..7] == "spotify";
    Present(d, "spotify", 0);
  }

  /** "Spotify" is categorised as "Entretenimiento". */
  lemma SpotifyCategory()
    ensures CategoryOf("Spotify") == "Entretenimiento"
  {
    LowerSpotify();
    var d := Lower("Spotify");
    SpotifyMissesSupermercado(d);
    SpotifyMissesTransporte(d);
    SpotifyHasSpotify(d);
    assert Rules[2].keywords[1] == "spotify";
    assert FirstMatchAt(Rules, d, 2);
    CategoryAt("Spotify", 2);
  }

  /** The sample's header row, already in normal form. */
  const SampleHeaders: seq<string> := ["fecha", "descripcion", "monto"]

  /** The five sample rows: a salary and four expenses. */
  const SampleRows: seq<RawRow> := [
    RawRow(Some(Date(2026, 1, 1)), Str("Sueldo enero"), Some(500000.0)),
    RawRow(Some(Date(2026, 1, 2)), Str("Supermercado Dia"), Some(-15000.0)),
    RawRow(Some(Date(2026, 1, 3)), Str("Uber al trabajo"), Some(-3200.0)),
    RawRow(Some(Date(2026, 1, 5)), Str("Netflix mensual"), Some(-4999.0)),
    RawRow(Some(Date(2026, 1, 6)), Str("Spotify"), Some(-3999.0))
  ]

  /** The categorised sample; `salary` is the category of the income row,
      which plays no part in the expense figures. */
  function SampleTable(salary: string): seq<Entry> {
    [Entry(Date(2026, 1, 1), "Sueldo enero", 500000.0, salary),
     Entry(Date(2026, 1, 2), "Supermercado Dia", -15000.0, "Supermercado"),
     Entry(Date(2026, 1, 3), "Uber al trabajo", -3200.0, "Transporte"),
     Entry(Date(2026, 1, 5), "Netflix mensual", -4999.0, "Entretenimiento"),
     Entry(Date(2026, 1, 6), "Spotify", -3999.0, "Entretenimiento")]
  }

  /** The expense per category, in index order. */
  const SampleByCategory: seq<Group> :=
    [Group("Entretenimiento", 8998.0), Group("Supermercado", 15000.0), Group("Transporte", 3200.0)]

  lemma HeaderFecha() ensures NormalizeHeader("fecha") == "fecha" {
    assert Lower("fecha") == "fecha";
    PaddedHeaderRecognised("", "fecha", "", "fecha");
    assert "" + "fecha" + "" == "fecha";
  }

  lemma HeaderDescripcion() ensures NormalizeHeader("descripcion") == "descripcion" {
    assert Lower("descripcion") == "descripcion";
    PaddedHeaderRecognised("", "descripcion", "", "descripcion");
    assert "" + "descripcion" + "" == "descripcion";
  }

  lemma HeaderMonto() ensures NormalizeHeader("monto") == "monto" {
    assert Lower("monto") == "monto";
    PaddedHeaderRecognised("", "monto", "", "monto");
    assert "" + "monto" + "" == "monto";
  }

  lemma SampleHeadersNormal(headers: seq<string>)
    requires headers == SampleHeaders
    ensures NormalizeHeaders(headers) == Required
  {
    HeaderFecha();
    HeaderDescripcion();
    HeaderMonto();
  }

  /** The sample's headers pass the column check. */
  lemma SampleHeadersAccepted()
    ensures MissingColumns(SampleHeaders) == []
  {
    SampleHeadersNormal(SampleHeaders);
    var missing := MissingColumns(SampleHeaders);
    forall c | c in Required ensures c !in missing {
      var i :| 0 <= i < |Required| && Required[i] == c;
      assert NormalizeHeader(SampleHeaders[i]) == c;
    }
  }

  /** The sample rows after cleaning: all five, in order. */
  const SampleCleanRows: seq<Row> := [
    Row(Date(2026, 1, 1), Str("Sueldo enero"), 500000.0),
    Row(Date(2026, 1, 2), Str("Supermercado Dia"), -15000.0),
    Row(Date(2026, 1, 3), Str("Uber al trabajo"), -3200.0),
    Row(Date(2026, 1, 5), Str("Netflix mensual"), -4999.0),
    Row(Date(2026, 1, 6), Str("Spotify"), -3999.0)
  ]

  lemma SampleCleaned()
    ensures Cleaned(SampleRows) == SampleCleanRows
  {
    CleanedAllParsed(SampleRows);
  }

  lemma {:induction false} TaggedEach(rows: seq<Row>, table: seq<Entry>)
    requires |table| == |rows|
    requires forall i :: 0 <= i < |rows| ==> rows[i].description.Str? && TagRow(rows[i]) == table[i]
    ensures Tagged(rows) == Some(table)
  {
    if rows != [] {
      var n := |rows| - 1;
      TaggedEach(rows[..n], table[..n]);
      assert table == table[..n] + [table[n]];
    }
  }

  lemma SampleTagged()
    ensures Tagged(SampleCleanRows) == Some(SampleTable(CategoryOf("Sueldo enero")))
  {
    var rows := SampleCleanRows;
    var table := SampleTable(CategoryOf("Sueldo enero"));
    SupermercadoDiaCategory();
    UberCategory();
    NetflixCategory();
    SpotifyCategory();
    forall i | 0 <= i < |rows| ensures rows[i].description.Str? && TagRow(rows[i]) == table[i] {
      if i == 0 {} else if i == 1 {} else if i == 2 {} else if i == 3 {} else {}
    }
    TaggedEach(rows, table);
  }

  lemma FiltersCons(e: Entry, rows: seq<Entry>)
    ensures Positives([e] + rows) == (if e.amount > 0.0 then [e] else []) + Positives(rows)
    ensures Negatives([e] + rows) == (if e.amount < 0.0 then [e] else []) + Negatives(rows)
  {
    assert ([e] + rows)[0] == e && ([e] + rows)[1..] == rows;
  }

  lemma GroupSumCons(e: Entry, rows: seq<Entry>)
    ensures GroupSum([e] + rows) == AddTo(GroupSum(rows), e.category, e.amount)
  {
    assert ([e] + rows)[0] == e && ([e] + rows)[1..] == rows;
  }

  /** A table of expense rows only is its own expense part and has no income part. */
  lemma {:induction false} AllExpenses(rows: seq<Entry>)
    requires forall i :: 0 <= i < |rows| ==> rows[i].amount < 0.0
    ensures Negatives(rows) == rows && Positives(rows) == []
  {
    if rows != [] {
      AllExpenses(rows[1..]);
      FiltersCons(rows[0], rows[1..]);
      assert rows == [rows[0]] + rows[1..];
    }
  }

  lemma TotalCons(e: Entry, rows: seq<Entry>)
    ensures Total([e] + rows) == e.amount + Total(rows)
  {
    assert ([e] + rows)[0] == e && ([e] + rows)[1..] == rows;
  }

  lemma TotalFour(b: Entry, c: Entry, d: Entry, e: Entry)
    ensures Total([b, c, d, e]) == b.amount + c.amount + d.amount + e.amount
  {
    TotalCons(e, []);
    TotalCons(d, [e]);
    TotalCons(c, [d, e]);
    TotalCons(b, [c, d, e]);
  }

  /** Income 500000 and expense -27198. */
  lemma SampleSums(salary: string)
    ensures Income(SampleTable(salary)) == 500000.0
    ensures Expense(SampleTable(salary)) == -27198.0
  {
    var t := SampleTable(salary);
    SampleSplit(salary);
    TotalCons(t[0], []);
    assert t[1..] == [t[1], t[2], t[3], t[4]];
    TotalFour(t[1], t[2], t[3], t[4]);
  }

  lemma EntertainmentBeforeTransport()
    ensures Less("Entretenimiento", "Transporte") && !Less("Transporte", "Entretenimiento")
  {
  }

  lemma SupermarketBetween()
    ensures !Less("Supermercado", "Entretenimiento") && Less("Supermercado", "Transporte")
  {
  }

  lemma OpenEntertainment()
    ensures AddTo([], "Entretenimiento", -3999.0) == [Group("Entretenimiento", -3999.0)]
  {
  }

  lemma AddEntertainment()
    ensures AddTo([Group("Entretenimiento", -3999.0)], "Entretenimiento", -4999.0) ==
            [Group("Entretenimiento", -8998.0)]
  {
    assert [Group("Entretenimiento", -3999.0)][1..] == [];
  }

  lemma OpenTransport()
    ensures AddTo([Group("Entretenimiento", -8998.0)], "Transporte", -3200.0) ==
            [Group("Entretenimiento", -8998.0), Group("Transporte", -3200.0)]
  {
    EntertainmentBeforeTransport();
    var groups := [Group("Entretenimiento", -8998.0)];
    assert groups[1..] == [];
    assert AddTo([], "Transporte", -3200.0) == [Group("Transporte", -3200.0)];
  }

  lemma OpenSupermarket()
    ensures AddTo([Group("Entretenimiento", -8998.0), Group("Transporte", -3200.0)], "Supermercado", -15000.0) ==
            [Group("Entretenimiento", -8998.0), Group("Supermercado", -15000.0), Group("Transporte", -3200.0)]
  {
    EntertainmentBeforeTransport();
    SupermarketBetween();
    var groups := [Group("Entretenimiento", -8998.0), Group("Transporte", -3200.0)];
    assert groups[1..] == [Group("Transporte", -3200.0)];
    assert AddTo(groups[1..], "Supermercado", -15000.0) ==
           [Group("Supermercado", -15000.0), Group("Transporte", -3200.0)];
  }

  lemma GroupSpotify(e: Entry, rest: seq<Entry>)
    requires e.category == "Entretenimiento" && e.amount == -3999.0
    requires GroupSum(rest) == []
    ensures GroupSum([e] + rest) == [Group("Entretenimiento", -3999.0)]
  {
    GroupSumCons(e, rest);
    OpenEntertainment();
  }

  lemma GroupNetflix(d: Entry, rest: seq<Entry>)
    requires d.category == "Entretenimiento" && d.amount == -4999.0
    requires GroupSum(rest) == [Group("Entretenimiento", -3999.0)]
    ensures GroupSum([d] + rest) == [Group("Entretenimiento", -8998.0)]
  {
    GroupSumCons(d, rest);
    AddEntertainment();
  }

  lemma GroupUber(c: Entry, rest: seq<Entry>)
    requires c.category == "Transporte" && c.amount == -3200.0
    requires GroupSum(rest) == [Group("Entretenimiento", -8998.0)]
    ensures GroupSum([c] + rest) == [Group("Entretenimiento", -8998.0), Group("Transporte", -3200.0)]
  {
    GroupSumCons(c, rest);
    OpenTransport();
  }

  lemma GroupSupermarket(b: Entry, rest: seq<Entry>)
    requires b.category == "Supermercado" && b.amount == -15000.0
    requires GroupSum(rest) == [Group("Entretenimiento", -8998.0), Group("Transporte", -3200.0)]
    ensures GroupSum([b] + rest) ==
            [Group("Entretenimiento", -8998.0), Group("Supermercado", -15000.0), Group("Transporte", -3200.0)]
  {
    GroupSumCons(b, rest);
    OpenSupermarket();
  }

  /** The four expenses grouped by category and summed. */
  lemma SampleGroupSum(salary: string)
    ensures GroupSum(SampleTable(salary)[1..]) ==
            [Group("Entretenimiento", -8998.0), Group("Supermercado", -15000.0), Group("Transporte", -3200.0)]
  {
    var t := SampleTable(salary);
    assert t[4..] == [t[4]] + t[5..] && t[5..] == [];
    GroupSpotify(t[4], t[5..]);
    assert t[3..] == [t[3]] + t[4..];
    GroupNetflix(t[3], t[4..]);
    assert t[2..] == [t[2]] + t[3..];
    GroupUber(t[2], t[3..]);
    assert t[1..] == [t[1]] + t[2..];
    GroupSupermarket(t[1], t[2..]);
  }

  /** The salary is the only income row; the other four are the expenses. */
  lemma SampleSplit(salary: string)
    ensures Positives(SampleTable(salary)) == [SampleTable(salary)[0]]
    ensures Negatives(SampleTable(salary)) == SampleTable(salary)[1..]
  {
    var t := SampleTable(salary);
    var rest := t[1..];
    assert t == [t[0]] + rest;
    AllExpenses(rest);
    FiltersCons(t[0], rest);
  }

  lemma SampleAbsTotals(groups: seq<Group>)
    requires groups == [Group("Entretenimiento", -8998.0), Group("Supermercado", -15000.0), Group("Transporte", -3200.0)]
    ensures AbsTotals(groups) == SampleByCategory
  {
  }

  /** The per-category expense of the sample. */
  lemma SampleGroups(salary: string)
    ensures ExpenseByCategory(SampleTable(salary)) == SampleByCategory
  {
    var t := SampleTable(salary);
    SampleSplit(salary);
    SampleGroupSum(salary);
    SampleAbsTotals(GroupSum(Negatives(t)));
  }

  /** `idxmax` lands on Supermercado, the largest value, 15000. */
  lemma SampleTop(groups: seq<Group>)
    requires groups == SampleByCategory
    ensures ArgMax(groups) == 1 && MaxTotal(groups) == 15000.0
  {
    var k := ArgMax(groups);
    assert groups[1].total <= groups[k].total;
    assert k != 2;
  }

  lemma SampleTotals(salary: string)
    ensures Summary(SampleTable(salary)) == Totals(500000.0, -27198.0, 472802.0, 4079.7)
  {
    SampleSums(salary);
  }

  lemma SampleRecommendation(top: string)
    requires top == "Supermercado"
    ensures Recommend(top, 15000.0) == ReduceTop("Supermercado", 15000.0)
  {
  }

  /** With the salary and the four expenses, the page shows
      income 500000, expense -27198, balance 472802, suggested savings
      4079.7, the top category Supermercado at 15000, and the generic
      advice to reduce it. */
  lemma SampleReport(salary: string)
    ensures Report(SampleTable(salary)) ==
      Analysed(Totals(500000.0, -27198.0, 472802.0, 4079.7), SampleTable(salary), SampleByCategory,
               "Supermercado", 15000.0, ReduceTop("Supermercado", 15000.0))
  {
    SampleGroups(salary);
    SampleTotals(salary);
    SampleTop(SampleByCategory);
    SampleRecommendation(SampleByCategory[1].category);
  }

  /** The whole pass over the sample file. */
  lemma SampleAnalysis()
    ensures Analysis(SampleHeaders, SampleRows) ==
      Analysed(Totals(500000.0, -27198.0, 472802.0, 4079.7), SampleTable(CategoryOf("Sueldo enero")),
               SampleByCategory, "Supermercado", 15000.0, ReduceTop("Supermercado", 15000.0))
  {
    SampleHeadersAccepted();
    SampleCleaned();
    SampleTagged();
    SampleReport(CategoryOf("Sueldo enero"));
  }
}
