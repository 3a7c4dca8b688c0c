/** The display names: `str.capitalize()` applied to each key of the
    category table. Each literal fact sits in a lemma of its own. */
module Labels {
  import opened Text

  /** A word whose tail is already lower case capitalises to its upper-cased
      first letter followed by that tail. */
  lemma CapitalizeWord(c: char, tail: string)
    requires Lower(tail) == tail
    ensures Capitalize([c] + tail) == [UpperChar(c)] + tail
  {
    assert ([c] + tail)[1..] == tail;
  }

  lemma TailSupermercado() ensures Lower("upermercado") == "upermercado" { }
  lemma SplitSupermercado() ensures "supermercado" == ['s'] + "upermercado" { }
  lemma JoinSupermercado() ensures [UpperChar('s')] + "upermercado" == "Supermercado" { }
  lemma CapitalizeSupermercado() ensures Capitalize("supermercado") == "Supermercado" {
    TailSupermercado(); SplitSupermercado(); JoinSupermercado();
    CapitalizeWord('s', "upermercado");
  }

  lemma TailTransporte() ensures Lower("ransporte") == "ransporte" { }
  lemma SplitTransporte() ensures "transporte" == ['t'] + "ransporte" { }
  lemma JoinTransporte() ensures [UpperChar('t')] + "ransporte" == "Transporte" { }
  lemma CapitalizeTransporte() ensures Capitalize("transporte") == "Transporte" {
    TailTransporte(); SplitTransporte(); JoinTransporte();
    CapitalizeWord('t', "ransporte");
  }

  lemma TailEntretenimiento() ensures Lower("ntretenimiento") == "ntretenimiento" { }
  lemma SplitEntretenimiento() ensures "entretenimiento" == ['e'] + "ntretenimiento" { }
  lemma JoinEntretenimiento() ensures [UpperChar('e')] + "ntretenimiento" == "Entretenimiento" { }
  lemma CapitalizeEntretenimiento() ensures Capitalize("entretenimiento") == "Entretenimiento" {
    TailEntretenimiento(); SplitEntretenimiento(); JoinEntretenimiento();
    CapitalizeWord('e', "ntretenimiento");
  }

  lemma TailSuscripciones() ensures Lower("uscripciones") == "uscripciones" { }
  lemma SplitSuscripciones() ensures "suscripciones" == ['s'] + "uscripciones" { }
  lemma JoinSuscripciones() ensures [UpperChar('s')] + "uscripciones" == "Suscripciones" { }
  lemma CapitalizeSuscripciones() ensures Capitalize("suscripciones") == "Suscripciones" {
    TailSuscripciones(); SplitSuscripciones(); JoinSuscripciones();
    CapitalizeWord('s', "uscripciones");
  }

  lemma TailSalud() ensures Lower("alud") == "alud" { }
  lemma SplitSalud() ensures "salud" == ['s'] + "alud" { }
  lemma JoinSalud() ensures [UpperChar('s')] + "alud" == "Salud" { }
  lemma CapitalizeSalud() ensures Capitalize("salud") == "Salud" {
    TailSalud(); SplitSalud(); JoinSalud();
    CapitalizeWord('s', "alud");
  }

  lemma TailHogar() ensures Lower("ogar") == "ogar" { }
  lemma SplitHogar() ensures "hogar" == ['h'] + "ogar" { }
  lemma JoinHogar() ensures [UpperChar('h')] + "ogar" == "Hogar" { }
  lemma CapitalizeHogar() ensures Capitalize("hogar") == "Hogar" {
    TailHogar(); SplitHogar(); JoinHogar();
    CapitalizeWord('h', "ogar");
  }

  lemma TailOtros() ensures Lower("tros") == "tros" { }
  lemma SplitOtros() ensures "otros" == ['o'] + "tros" { }
  lemma JoinOtros() ensures [UpperChar('o')] + "tros" == "Otros" { }
  lemma CapitalizeOtros() ensures Capitalize("otros") == "Otros" {
    TailOtros(); SplitOtros(); JoinOtros();
    CapitalizeWord('o', "tros");
  }

}

/** The keyword categoriser: an ordered table of categories, each with a list
    of keywords, searched first to last for a keyword that occurs in the
    lower-cased description. */
module Categories {
  import opened Text
  import opened Labels

  datatype Rule = Rule(name: string, keywords: seq<string>)

  /** The `categorias` table, in its declared order. */
  const Rules: seq<Rule> := [
    Rule("supermercado", ["supermercado", "mercado", "walmart", "coto", "carrefour", "dia", "jumbo"]),
    Rule("transporte", ["uber", "cabify", "subte", "colectivo", "nafta", "estacionamiento", "peaje"]),
    Rule("entretenimiento", ["netflix", "spotify", "cine", "bar", "restaurante", "delivery", "rappi", "pedidosya"]),
    Rule("suscripciones", ["netflix", "spotify", "disney", "amazon prime", "youtube premium"]),
    Rule("salud", ["farmacia", "medico", "obra social", "prepaga"]),
    Rule("hogar", ["luz", "gas", "internet", "alquiler", "expensas"]),
    Rule("otros", [])
  ]

  /** What `categorizar` returns when no keyword matches. */
  const Fallback: string := "Otros"

  /** The capitalised names of `Rules`, index by index. */
  const Display: seq<string> :=
    ["Supermercado", "Transporte", "Entretenimiento", "Suscripciones", "Salud", "Hogar", "Otros"]

  /** `any(palabra in desc for palabra in palabras)`. */
  predicate AnyKeyword(keywords: seq<string>, desc: string) {
    exists k :: 0 <= k < |keywords| && Contains(desc, keywords[k])
  }

  /** Rule `i` is the first rule of `rules` with a keyword in `desc`. */
  predicate FirstMatchAt(rules: seq<Rule>, desc: string, i: int) {
    0 <= i < |rules| && AnyKeyword(rules[i].keywords, desc) &&
    forall j :: 0 <= j < i ==> !AnyKeyword(rules[j].keywords, desc)
  }

  predicate NoneMatch(rules: seq<Rule>, desc: string) {
    forall i :: 0 <= i < |rules| ==> !AnyKeyword(rules[i].keywords, desc)
  }

  /** The first-match search over `rules`, for an already lower-cased `desc`. */
  function FirstMatch(rules: seq<Rule>, desc: string): string {
    if rules == [] then Fallback
    else if AnyKeyword(rules[0].keywords, desc) then Capitalize(rules[0].name)
    else FirstMatch(rules[1..], desc)
  }

  /** The search returns the capitalised name of the first rule with a
      keyword in `desc`, and the fallback when there is none. */
  lemma {:induction false} FirstMatchSpec(rules: seq<Rule>, desc: string)
    ensures NoneMatch(rules, desc) ==> FirstMatch(rules, desc) == Fallback
    ensures forall i :: FirstMatchAt(rules, desc, i) ==> FirstMatch(rules, desc) == Capitalize(rules[i].name)
    ensures NoneMatch(rules, desc) || exists i :: FirstMatchAt(rules, desc, i)
  {
    if rules != [] {
      if AnyKeyword(rules[0].keywords, desc) {
        assert FirstMatchAt(rules, desc, 0);
      } else {
        FirstMatchSpec(rules[1..], desc);
        forall i | FirstMatchAt(rules, desc, i)
          ensures FirstMatch(rules, desc) == Capitalize(rules[i].name)
        {
          FirstMatchShift(rules, desc, i);
        }
        NoneMatchShift(rules, desc);
        if !NoneMatch(rules[1..], desc) {
          var i :| FirstMatchAt(rules[1..], desc, i);
          FirstMatchShift(rules, desc, i + 1);
        }
      }
    }
  }

  /** Past a rule that does not match, the first match moves down by one. */
  lemma FirstMatchShift(rules: seq<Rule>, desc: string, i: int)
    requires rules != [] && !AnyKeyword(rules[0].keywords, desc)
    ensures FirstMatchAt(rules, desc, i) <==> i > 0 && FirstMatchAt(rules[1..], desc, i - 1)
  {
    if 0 < i <= |rules| {
      assert forall j :: 0 < j < |rules| ==> rules[1..][j - 1] == rules[j];
    }
  }

  lemma NoneMatchShift(rules: seq<Rule>, desc: string)
    requires rules != [] && !AnyKeyword(rules[0].keywords, desc)
    ensures NoneMatch(rules, desc) <==> NoneMatch(rules[1..], desc)
  {
    assert forall j :: 0 < j < |rules| ==> rules[1..][j - 1] == rules[j];
  }

  /** The category `categorizar` gives a description. */
  function CategoryOf(descripcion: string): string {
    FirstMatch(Rules, Lower(descripcion))
  }

  /** `categorizar`: the loop over the table with an early return. */
  method Categorize(descripcion: string) returns (categoria: string)
    ensures categoria == CategoryOf(descripcion)
  {
    var desc := Lower(descripcion);
    var i := 0;
    while i < |Rules|
      invariant 0 <= i <= |Rules|
      invariant FirstMatch(Rules[i..], desc) == FirstMatch(Rules, desc)
    {
      if AnyKeyword(Rules[i].keywords, desc) {
        return Capitalize(Rules[i].name);
      }
      assert Rules[i..][1..] == Rules[i + 1..];
      i := i + 1;
    }
    return Fallback;
  }

  /** `categoria.capitalize()` turns each table key into its display name. */
  lemma DisplayNames()
    ensures |Display| == |Rules|
    ensures forall i :: 0 <= i < |Rules| ==> Capitalize(Rules[i].name) == Display[i]
  {
    forall i | 0 <= i < |Rules| ensures Capitalize(Rules[i].name) == Display[i] {
      if i == 0 { CapitalizeSupermercado(); }
      else if i == 1 { CapitalizeTransporte(); }
      else if i == 2 { CapitalizeEntretenimiento(); }
      else if i == 3 { CapitalizeSuscripciones(); }
      else if i == 4 { CapitalizeSalud(); }
      else if i == 5 { CapitalizeHogar(); }
      else { CapitalizeOtros(); }
    }
  }

  /** Some rule matches, so there is a first one. */
  lemma FirstMatchIndex(desc: string) returns (i: int)
    requires !NoneMatch(Rules, desc)
    ensures FirstMatchAt(Rules, desc, i)
  {
    FirstMatchSpec(Rules, desc);
    i :| FirstMatchAt(Rules, desc, i);
  }

  /** The description matched first at rule `i` gets display name `i`. */
  lemma CategoryAt(descripcion: string, i: int)
    requires FirstMatchAt(Rules, Lower(descripcion), i)
    ensures CategoryOf(descripcion) == Display[i]
  {
    FirstMatchSpec(Rules, Lower(descripcion));
    DisplayNames();
  }

  /** The category is always one of the seven fixed names. */
  lemma CategoryIsFixedName(descripcion: string)
    ensures CategoryOf(descripcion) in Display
  {
    var desc := Lower(descripcion);
    FirstMatchSpec(Rules, desc);
    if !NoneMatch(Rules, desc) {
      var i := FirstMatchIndex(desc);
      CategoryAt(descripcion, i);
    }
  }

  /** The `otros` entry has no keywords, so it is never the first match. */
  lemma OtrosNeverMatches(desc: string, i: int)
    requires FirstMatchAt(Rules, desc, i)
    ensures i < 6
  {
  }

  lemma DisplayBeforeFallback(i: int)
    requires 0 <= i < 6
    ensures Display[i] != Fallback
  {
  }

  /** "Otros" exactly when no keyword of any category occurs: only the
      fallback can produce that name. */
  lemma FallbackIffNoKeyword(descripcion: string)
    ensures CategoryOf(descripcion) == Fallback <==> NoneMatch(Rules, Lower(descripcion))
  {
    var desc := Lower(descripcion);
    FirstMatchSpec(Rules, desc);
    if !NoneMatch(Rules, desc) {
      var i := FirstMatchIndex(desc);
      CategoryAt(descripcion, i);
      OtrosNeverMatches(desc, i);
      DisplayBeforeFallback(i);
    }
  }

  /** Matching ignores the case of the description. */
  lemma CaseInsensitive(descripcion: string)
    ensures CategoryOf(Lower(descripcion)) == CategoryOf(descripcion)
    ensures CategoryOf(Capitalize(descripcion)) == CategoryOf(descripcion)
  {
    LowerIdempotent(descripcion);
  }

  /** A description mentioning netflix or spotify is never a subscription:
      the entertainment entry comes first and holds both keywords, so only the
      two entries before it can take such a description. */
  lemma StreamingIsEntertainment(descripcion: string)
    requires Contains(Lower(descripcion), "netflix") || Contains(Lower(descripcion), "spotify")
    ensures CategoryOf(descripcion) in {"Supermercado", "Transporte", "Entretenimiento"}
    ensures !AnyKeyword(Rules[0].keywords, Lower(descripcion)) &&
            !AnyKeyword(Rules[1].keywords, Lower(descripcion)) ==>
            CategoryOf(descripcion) == "Entretenimiento"
  {
    var desc := Lower(descripcion);
    var k := if Contains(desc, "netflix") then 0 else 1;
    assert Contains(desc, Rules[2].keywords[k]);
    assert AnyKeyword(Rules[2].keywords, desc);
    var i := FirstMatchIndex(desc);
    CategoryAt(descripcion, i);
  }

  /** An earlier entry beats the entertainment entry: a description with
      both "netflix" and "supermercado" in it is a supermarket expense. */
  lemma SupermarketBeforeStreaming(descripcion: string)
    requires Contains(Lower(descripcion), "netflix") && Contains(Lower(descripcion), "supermercado")
    ensures CategoryOf(descripcion) == "Supermercado"
  {
    var desc := Lower(descripcion);
    assert Rules[0].keywords[0] == "supermercado";
    assert AnyKeyword(Rules[0].keywords, desc);
    assert FirstMatchAt(Rules, desc, 0);
    CategoryAt(descripcion, 0);
  }

  lemma DisplaySubscriptions(i: int)
    requires 0 <= i < |Display| && Display[i] == "Suscripciones"
    ensures i == 3
  {
  }

  lemma SubscriptionKeyword(desc: string)
    requires AnyKeyword(Rules[3].keywords, desc) && !AnyKeyword(Rules[2].keywords, desc)
    ensures !Contains(desc, "netflix") && !Contains(desc, "spotify")
    ensures Contains(desc, "disney") || Contains(desc, "amazon prime") || Contains(desc, "youtube premium")
  {
    var streaming := Rules[2].keywords;
    assert streaming[0] == "netflix" && streaming[1] == "spotify";
    assert !Contains(desc, streaming[0]) && !Contains(desc, streaming[1]);
    var k :| 0 <= k < |Rules[3].keywords| && Contains(desc, Rules[3].keywords[k]);
  }

  /** "Suscripciones" is reached only through its three keywords the
      entertainment entry does not share. */
  lemma SubscriptionsReachedOnlyWithoutStreaming(descripcion: string)
    requires CategoryOf(descripcion) == "Suscripciones"
    ensures !Contains(Lower(descripcion), "netflix") && !Contains(Lower(descripcion), "spotify")
    ensures Contains(Lower(descripcion), "disney") || Contains(Lower(descripcion), "amazon prime") ||
            Contains(Lower(descripcion), "youtube premium")
  {
    var desc := Lower(descripcion);
    FallbackIffNoKeyword(descripcion);
    var i := FirstMatchIndex(desc);
    CategoryAt(descripcion, i);
    DisplaySubscriptions(i);
    SubscriptionKeyword(desc);
  }
}
