/** The column check at the top of the pipeline: header names are lower-cased
    and stripped, and the required columns that are absent are listed. */
module Schema {
  import opened Text

  /** The columns the analysis needs, in the order they are reported. */
  const Required: seq<string> := ["fecha", "descripcion", "monto"]

  /** One header after `col.lower().strip()`. */
  function NormalizeHeader(h: string): (r: string)
    ensures Padded(Lower(h), r)
    ensures forall i :: 0 <= i < |r| ==> !IsUpper(r[i])
  {
    var l := Lower(h);
    StripNoUpper(l);
    Strip(l)
  }

  /** `strip` leaves no whitespace at either end of a normalised header. */
  lemma NormalizeHeaderTrimmed(h: string)
    ensures var r := NormalizeHeader(h);
      r == [] || (!IsSpace(r[0]) && !IsSpace(r[|r| - 1]))
  {
  }

  function NormalizeHeaders(headers: seq<string>): (columns: seq<string>)
    ensures |columns| == |headers|
    ensures forall i :: 0 <= i < |headers| ==> columns[i] == NormalizeHeader(headers[i])
  {
    seq(|headers|, i requires 0 <= i < |headers| => NormalizeHeader(headers[i]))
  }

  /** `a` is `b` with some elements left out, the rest in their order. */
  predicate IsSubsequence(a: seq<string>, b: seq<string>) {
    if a == [] then true
    else if b == [] then false
    else if a[0] == b[0] then IsSubsequence(a[1..], b[1..])
    else IsSubsequence(a, b[1..])
  }

  /** The elements of `wanted` that are not in `columns`, in `wanted`'s order. */
  function Absent(wanted: seq<string>, columns: seq<string>): (missing: seq<string>)
    ensures IsSubsequence(missing, wanted)
    ensures forall c :: c in missing <==> c in wanted && c !in columns
  {
    if wanted == [] then []
    else if wanted[0] in columns then Absent(wanted[1..], columns)
    else [wanted[0]] + Absent(wanted[1..], columns)
  }

  /** The list the page reports before halting; the analysis continues only
      when it is empty. */
  function MissingColumns(headers: seq<string>): (missing: seq<string>)
    ensures IsSubsequence(missing, Required)
    ensures forall c :: c in missing <==>
      c in Required && forall i :: 0 <= i < |headers| ==> NormalizeHeader(headers[i]) != c
  {
    var columns := NormalizeHeaders(headers);
    var missing := Absent(Required, columns);
    assert forall c :: c in columns <==> exists i :: 0 <= i < |headers| && NormalizeHeader(headers[i]) == c;
    missing
  }

  lemma SpaceIsNotUpper(s: string)
    requires AllSpace(s)
    ensures Lower(s) == s
  {
  }

  /** Header matching ignores case and surrounding whitespace: a header that
      lower-cases to a required name is recognised whatever whitespace pads it. */
  lemma PaddedHeaderRecognised(p: string, h: string, q: string, c: string)
    requires AllSpace(p) && AllSpace(q)
    requires c in Required && Lower(h) == c
    ensures NormalizeHeader(p + h + q) == c
  {
    LowerConcat(p + h, q);
    LowerConcat(p, h);
    SpaceIsNotUpper(p);
    SpaceIsNotUpper(q);
    StripPadded(p, c, q);
  }

  lemma LowerFecha(h: string)
    requires h == "Fecha"
    ensures Lower(h) == "fecha"
  {
  }

  lemma NormalizeFecha(h: string)
    requires h == "Fecha"
    ensures NormalizeHeader(h) == "fecha"
  {
    LowerFecha(h);
    PaddedHeaderRecognised("", h, "", "fecha");
    assert "" + h + "" == h;
  }

  lemma LowerDescripcion(h: string)
    requires h == "descripcion"
    ensures Lower(h) == h
  {
  }

  lemma NormalizePaddedDescripcion(h: string)
    requires h == " descripcion "
    ensures NormalizeHeader(h) == "descripcion"
  {
    var name := h[1..12];
    assert name == "descripcion";
    LowerDescripcion(name);
    assert AllSpace(h[..1]) && AllSpace(h[12..]);
    assert h == h[..1] + name + h[12..];
    PaddedHeaderRecognised(h[..1], name, h[12..], "descripcion");
  }

  lemma NormalizeFechaDescripcionHeaders(headers: seq<string>)
    requires headers == ["Fecha", " descripcion "]
    ensures NormalizeHeaders(headers) == ["fecha", "descripcion"]
  {
    NormalizeFecha(headers[0]);
    NormalizePaddedDescripcion(headers[1]);
    NormalizeTwo(headers, "fecha", "descripcion");
  }

  lemma NormalizeTwo(headers: seq<string>, a: string, b: string)
    requires |headers| == 2 && NormalizeHeader(headers[0]) == a && NormalizeHeader(headers[1]) == b
    ensures NormalizeHeaders(headers) == [a, b]
  {
  }

  lemma AbsentAmount()
    ensures Absent(Required, ["fecha", "descripcion"]) == ["monto"]
  {
    var columns := ["fecha", "descripcion"];
    assert Required[1..] == ["descripcion", "monto"] && Required[2..] == ["monto"];
    assert Absent(["monto"], columns) == ["monto"] + Absent([], columns);
    assert Absent(Required[1..], columns) == Absent(["monto"], columns);
  }

  /** A file without the amount column halts with exactly `['monto']`, even
      when the other headers differ in case and padding. */
  lemma MissingAmountColumn()
    ensures MissingColumns(["Fecha", " descripcion "]) == ["monto"]
  {
    NormalizeFechaDescripcionHeaders(["Fecha", " descripcion "]);
    AbsentAmount();
  }
}
