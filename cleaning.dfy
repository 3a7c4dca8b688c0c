/** Row cleaning: after `fecha` and `monto` are coerced, rows whose date or
    amount did not parse are dropped, first by date, then by amount. */
module Cleaning {
  import opened Table

  predicate HasDate(r: RawRow) {
    r.date.Some?
  }

  /** Both coerced cells hold a value: the row survives cleaning. */
  predicate Parsed(r: RawRow) {
    r.date.Some? && r.amount.Some?
  }

  function Convert(r: RawRow): Row
    requires Parsed(r)
  {
    Row(r.date.value, r.description, r.amount.value)
  }

  /** `df.dropna(subset=['fecha'])`. */
  function Dated(raw: seq<RawRow>): (kept: seq<RawRow>)
    ensures |kept| <= |raw|
    ensures forall r :: r in kept ==> HasDate(r) && r in raw
    ensures forall i :: 0 <= i < |raw| && HasDate(raw[i]) ==> raw[i] in kept
  {
    if raw == [] then []
    else
      var init, last := raw[..|raw| - 1], raw[|raw| - 1];
      assert forall i :: 0 <= i < |init| ==> init[i] == raw[i];
      Dated(init) + (if HasDate(last) then [last] else [])
  }

  /** The date pass is an order-preserving filter: it distributes over concatenation. */
  lemma {:induction false} DatedAppend(a: seq<RawRow>, b: seq<RawRow>)
    ensures Dated(a + b) == Dated(a) + Dated(b)
    decreases |b|
  {
    if b != [] {
      var b' := b[..|b| - 1];
      assert (a + b)[..|a + b| - 1] == a + b';
      assert (a + b)[|a + b| - 1] == b[|b| - 1];
      DatedAppend(a, b');
    } else {
      assert a + b == a;
    }
  }

  /** The table after both `dropna` calls, each survivor converted to a `Row`. */
  function Cleaned(raw: seq<RawRow>): (rows: seq<Row>)
    ensures |rows| <= |raw|
  {
    if raw == [] then []
    else
      var last := raw[|raw| - 1];
      Cleaned(raw[..|raw| - 1]) + (if Parsed(last) then [Convert(last)] else [])
  }

  /** Cleaning is an order-preserving filter: it commutes with concatenation. */
  lemma {:induction false} CleanedAppend(a: seq<RawRow>, b: seq<RawRow>)
    ensures Cleaned(a + b) == Cleaned(a) + Cleaned(b)
    decreases |b|
  {
    if b != [] {
      var b' := b[..|b| - 1];
      assert (a + b)[..|a + b| - 1] == a + b';
      assert (a + b)[|a + b| - 1] == b[|b| - 1];
      CleanedAppend(a, b');
    } else {
      assert a + b == a;
    }
  }

  /** Every row that parsed is kept, and every kept row comes from one that parsed. */
  lemma {:induction false} CleanedMembers(raw: seq<RawRow>)
    ensures forall i :: 0 <= i < |raw| && Parsed(raw[i]) ==> Convert(raw[i]) in Cleaned(raw)
    ensures forall row :: row in Cleaned(raw) ==>
      exists i :: 0 <= i < |raw| && Parsed(raw[i]) && Convert(raw[i]) == row
  {
    if raw != [] {
      var init := raw[..|raw| - 1];
      CleanedMembers(init);
      forall row | row in Cleaned(raw)
        ensures exists i :: 0 <= i < |raw| && Parsed(raw[i]) && Convert(raw[i]) == row
      {
        if row in Cleaned(init) {
          var i :| 0 <= i < |init| && Parsed(init[i]) && Convert(init[i]) == row;
          assert raw[i] == init[i];
        } else {
          assert Parsed(raw[|raw| - 1]) && row == Convert(raw[|raw| - 1]);
        }
      }
    }
  }

  /** When every row parsed, cleaning drops nothing and keeps the order. */
  lemma {:induction false} CleanedAllParsed(raw: seq<RawRow>)
    requires forall i :: 0 <= i < |raw| ==> Parsed(raw[i])
    ensures |Cleaned(raw)| == |raw|
    ensures forall i :: 0 <= i < |raw| ==> Cleaned(raw)[i] == Convert(raw[i])
  {
    if raw != [] {
      var init := raw[..|raw| - 1];
      CleanedAllParsed(init);
      assert forall i :: 0 <= i < |init| ==> init[i] == raw[i];
    }
  }

  /** The amount pass over the date-filtered rows keeps what one combined pass keeps. */
  lemma {:induction false} CleanedAfterDated(raw: seq<RawRow>)
    ensures Cleaned(Dated(raw)) == Cleaned(raw)
  {
    if raw != [] {
      var init, last := raw[..|raw| - 1], raw[|raw| - 1];
      CleanedAfterDated(init);
      if HasDate(last) {
        CleanedAppend(Dated(init), [last]);
        assert [last][..0] == [];
      } else {
        assert Dated(raw) == Dated(init) + [];
        assert Dated(init) + [] == Dated(init);
        assert Cleaned(raw) == Cleaned(init) + [];
      }
    }
  }

  /** The two `dropna` passes, each a filtering loop that builds the new table. */
  method Clean(raw: seq<RawRow>) returns (rows: seq<Row>)
    ensures rows == Cleaned(raw)
  {
    var dated: seq<RawRow> := [];
    for i := 0 to |raw|
      invariant dated == Dated(raw[..i])
    {
      assert raw[..i + 1][..i] == raw[..i];
      if raw[i].date.Some? {
        dated := dated + [raw[i]];
      }
    }
    assert raw[..|raw|] == raw;
    rows := [];
    for i := 0 to |dated|
      invariant rows == Cleaned(dated[..i])
    {
      assert dated[..i + 1][..i] == dated[..i];
      assert dated[i] in dated;
      if dated[i].amount.Some? {
        rows := rows + [Convert(dated[i])];
      }
    }
    assert dated[..|dated|] == dated;
    CleanedAfterDated(raw);
  }
}
