/**
 * The record extractor of scraper.py: from the rows of the upstream incident
 * table to `Incidencia` records, the community lookup, the URL builder and the
 * active filter. The HTML parser is abstracted into `Row` and `Cell` values
 * that expose exactly the queries the extractor makes.
 */
module Scraper {
  import opened Wrappers
  import opened Text
  import opened Patterns
  import opened Tables
  import opened Seqs

  const Desconocida: string := "DESCONOCIDA"
  const NivelDesconocido: string := "desconocido"
  /** The marker phrase that selects rows, and the plain category. */
  const ObstaculoFijo: string := "OBSTÁCULO FIJO"
  const PorAccidente: string := "OBSTÁCULO FIJO POR ACCIDENTE"
  const Accidente: string := "ACCIDENTE"

  // ---------------------------------------------------------------------
  // Data model

  /** One road incident (scraper.py:183-204). The coordinates and their
      precision label stay `None` until the record is geocoded. */
  datatype Incidencia = Incidencia(
    id: string,
    tipo: string,
    fechaInicio: string,
    horaInicio: string,
    fechaFin: Option<string>,
    horaFin: Option<string>,
    nivel: string,
    comunidad: string,
    provincia: string,
    poblacion: string,
    carretera: string,
    pk: string,
    sentido: string,
    descripcion: string,
    activa: bool,
    latitud: Option<real>,
    longitud: Option<real>,
    precisionGeo: Option<string>)

  /** A `<b>` element: its text and `str()` of its previous sibling (its markup
      when that sibling is an element), `None` when there is no sibling or it is empty. */
  datatype Bold = Bold(text: string, previousSibling: Option<string>)

  /** An `<img>` element and its `src` attribute, if it has one. */
  datatype Img = Img(src: Option<string>)

  /** A `<td>` cell: its whole text and the first `span`, `a` and `img`
      below it, plus every `b` below it in document order. */
  datatype Cell = Cell(
    text: string,
    span: Option<string>,
    link: Option<string>,
    img: Option<Img>,
    bolds: seq<Bold>)
  {
    /** The text of `cell.find('b')`: the first bold element. */
    function FirstBold(): Option<string> {
      if bolds == [] then None else Some(bolds[0].text)
    }
  }

  /** A `<tr>` row: its whole text, its cells, the `onclick` attribute of each of
      its links and the `alt` attribute of each of its images, in document order. */
  datatype Row = Row(
    text: string,
    cells: seq<Cell>,
    onclicks: seq<Option<string>>,
    alts: seq<Option<string>>)

  // ---------------------------------------------------------------------
  // get_comunidad

  /** The community of a province, or "DESCONOCIDA"; never empty. */
  function GetComunidad(provincia: string): (r: string)
    ensures r != []
    ensures r == Desconocida <==> Strip(Upper(provincia)) !in ProvinciasComunidades
    ensures Strip(Upper(provincia)) in ProvinciasComunidades ==>
              r == ProvinciasComunidades[Strip(Upper(provincia))].Name()
  {
    var key := Strip(Upper(provincia));
    if key in ProvinciasComunidades then
      var c := ProvinciasComunidades[key];
      NameIsNotDesconocida(c);
      c.Name()
    else Desconocida
  }

  lemma NameIsNotDesconocida(c: Comunidad)
    ensures c.Name() != Desconocida
  {
  }

  /** The lookup ignores letter case. */
  lemma {:induction false} GetComunidadIgnoresCase(provincia: string)
    ensures GetComunidad(Upper(provincia)) == GetComunidad(provincia)
  {
    UpperIdempotent(provincia);
  }

  /** The lookup ignores surrounding whitespace. */
  lemma {:induction false} GetComunidadIgnoresPadding(w1: string, provincia: string, w2: string)
    requires AllSpace(w1) && AllSpace(w2)
    ensures GetComunidad(w1 + provincia + w2) == GetComunidad(provincia)
  {
    assert Upper(w1 + provincia + w2) == Upper(w1) + Upper(provincia) + Upper(w2);
    forall c | c in Upper(w1) + Upper(w2) ensures IsSpace(c) {
      if c in Upper(w1) {
        var i :| 0 <= i < |w1| && Upper(w1)[i] == c;
        UpperKeepsSpace(w1[i]);
      } else {
        var i :| 0 <= i < |w2| && Upper(w2)[i] == c;
        UpperKeepsSpace(w2[i]);
      }
    }
    assert AllSpace(Upper(w1)) && AllSpace(Upper(w2));
    StripPadding(Upper(w1), Upper(provincia), Upper(w2));
  }

  // ---------------------------------------------------------------------
  // extract_id

  /** The code in one `onclick` attribute (absent reads as ""). */
  function OnclickCode(onclick: Option<string>): (r: Option<string>)
    ensures r.Some? ==> r.value != [] && AllDigits(r.value)
  {
    SearchCodigo(onclick.GetOr(""))
  }

  /** The code at the end of one `alt` attribute (absent reads as ""). */
  function AltCode(alt: Option<string>): (r: Option<string>)
    ensures r.Some? ==> r.value != [] && AllDigits(r.value)
  {
    SearchTrailingCode(alt.GetOr(""))
  }

  /** The first link, in document order, whose `onclick` holds a code. */
  function FirstOnclickCode(onclicks: seq<Option<string>>): (r: Option<string>)
    ensures r.Some? ==> r.value != [] && AllDigits(r.value)
    ensures r.None? <==> forall k :: 0 <= k < |onclicks| ==> OnclickCode(onclicks[k]).None?
    ensures forall k ::
              0 <= k < |onclicks| && OnclickCode(onclicks[k]).Some? &&
              (forall j :: 0 <= j < k ==> OnclickCode(onclicks[j]).None?)
              ==> r == OnclickCode(onclicks[k])
  {
    FirstSome(onclicks, OnclickCode)
  }

  /** The first image, in document order, whose `alt` ends in a code. */
  function FirstAltCode(alts: seq<Option<string>>): (r: Option<string>)
    ensures r.Some? ==> r.value != [] && AllDigits(r.value)
    ensures r.None? <==> forall k :: 0 <= k < |alts| ==> AltCode(alts[k]).None?
    ensures forall k ::
              0 <= k < |alts| && AltCode(alts[k]).Some? &&
              (forall j :: 0 <= j < k ==> AltCode(alts[j]).None?)
              ==> r == AltCode(alts[k])
  {
    FirstSome(alts, AltCode)
  }

  /** extract_id: the first code found in a link's `onclick`; only when no link
      has one, the first code ending an image's `alt`; else "". */
  function ExtractId(row: Row): (r: string)
    ensures AllDigits(r)
    ensures r == [] <==> FirstOnclickCode(row.onclicks).None? && FirstAltCode(row.alts).None?
    ensures FirstOnclickCode(row.onclicks).Some? ==> r == FirstOnclickCode(row.onclicks).value
    ensures FirstOnclickCode(row.onclicks).None? && FirstAltCode(row.alts).Some? ==>
              r == FirstAltCode(row.alts).value
  {
    match FirstOnclickCode(row.onclicks)
    case Some(code) => code
    case None => FirstAltCode(row.alts).GetOr("")
  }

  // ---------------------------------------------------------------------
  // parse_row, one field extractor per cell

  /** Cell 0: the start date (text of the first link) and hour (text of the first span). */
  function StartStamp(c: Cell): (r: (string, string))
    ensures NoEdgeSpace(r.0) && NoEdgeSpace(r.1)
    ensures c.link.None? ==> r.0 == []
    ensures c.link.Some? ==> r.0 == Strip(c.link.value)
    ensures c.span.None? ==> r.1 == []
    ensures c.span.Some? ==> r.1 == Strip(c.span.value)
  {
    (if c.link.Some? then Strip(c.link.value) else "",
     if c.span.Some? then Strip(c.span.value) else "")
  }

  /** The end of an incident, as found in cell 1. */
  datatype EndStamp = EndStamp(hora: Option<string>, fecha: Option<string>)

  /** Cell 1: the end hour is the stripped span text when that is not blank; only
      then is a `dd/dd/dddd` date looked for in the cell's text. */
  function EndOf(c: Cell): (r: EndStamp)
    ensures r.hora.Some? <==> c.span.Some? && Strip(c.span.value) != []
    ensures r.hora.Some? ==> r.hora.value == Strip(c.span.value)
    ensures r.fecha.Some? ==> r.hora.Some?
    ensures r.fecha.Some? ==> DateShaped(r.fecha.value) && Contains(c.text, r.fecha.value)
    ensures r.hora.Some? ==> (r.fecha.None? <==> forall i :: 0 <= i <= |c.text| ==> !DateAt(c.text, i))
    ensures r.hora.Some? ==> forall i :: LeftmostDate(c.text, i) ==> r.fecha == Some(DateGroup(c.text, i))
  {
    if c.span.Some? && Strip(c.span.value) != [] then
      EndStamp(Some(Strip(c.span.value)), SearchDate(c.text))
    else
      EndStamp(None, None)
  }

  /** Cell 2: the level named by the image file `nivel_<word>.gif`, else "desconocido". */
  function NivelOf(c: Cell): (r: string)
    ensures (c.img.None? || c.img.value.src.None? || c.img.value.src.value == []
             || SearchNivel(c.img.value.src.value).None?) ==> r == NivelDesconocido
    ensures r != NivelDesconocido ==>
              r != [] && (forall k :: 0 <= k < |r| ==> IsWordChar(r[k])) &&
              Contains(c.img.value.src.value, NivelPrefix + r + GifSuffix)
    ensures c.img.Some? && c.img.value.src.Some? && c.img.value.src.value != [] ==>
              forall i :: LeftmostNivel(c.img.value.src.value, i) ==> r == NivelGroup(c.img.value.src.value, i)
  {
    if c.img.Some? && c.img.value.src.Some? && c.img.value.src.value != [] then
      SearchNivel(c.img.value.src.value).GetOr(NivelDesconocido)
    else NivelDesconocido
  }

  /** Cell 3: the province is the stripped bold text; the locality is the cell's
      stripped text with every occurrence of the province removed, stripped again,
      or "" when the province is empty or does not occur in that text. */
  function PlaceOf(c: Cell): (r: (string, string))
    ensures NoEdgeSpace(r.0) && NoEdgeSpace(r.1)
    ensures c.FirstBold().None? ==> r.0 == []
    ensures c.FirstBold().Some? ==> r.0 == Strip(c.FirstBold().value)
    ensures r.0 == [] || !Contains(Strip(c.text), r.0) ==> r.1 == []
    ensures r.0 != [] && Contains(Strip(c.text), r.0) ==>
              r.1 == Strip(RemoveAll(Strip(c.text), r.0)) && |r.1| <= |Strip(c.text)| - |r.0|
  {
    var provincia := if c.FirstBold().Some? then Strip(c.FirstBold().value) else "";
    var fullText := Strip(c.text);
    var poblacion := if provincia != [] && Contains(fullText, provincia)
                     then Strip(RemoveAll(fullText, provincia)) else "";
    assert provincia != [] && Contains(fullText, provincia) ==>
             |Strip(RemoveAll(fullText, provincia))| <= |RemoveAll(fullText, provincia)|;
    (provincia, poblacion)
  }

  /** Cell 4: the road is the stripped bold text, or "". */
  function RoadOf(c: Cell): (r: string)
    ensures NoEdgeSpace(r)
    ensures c.FirstBold().None? ==> r == []
    ensures c.FirstBold().Some? ==> r == Strip(c.FirstBold().value)
  {
    if c.FirstBold().Some? then Strip(c.FirstBold().value) else ""
  }

  /** Normalised description text: stripped, then every whitespace run made one
      space. */
  predicate Normalised(d: string) {
    NoEdgeSpace(d) && SingleSpaced(d)
  }

  /** Cell 5: the description, normalised, with the visible text of the cell
      kept character for character and one space exactly where the cell's text
      has whitespace between two visible characters. */
  function DescriptionOf(c: Cell): (d: string)
    ensures Normalised(d)
    ensures Visible(d) == Visible(c.text)
    ensures Layout(d) == Layout(c.text)
  {
    var t := Strip(c.text);
    CollapseKeepsEdges(t);
    CollapseVisible(t);
    StripVisible(c.text);
    GapsOfCollapse(t, false, false);
    StripLayout(c.text);
    Collapse(t)
  }

  /** The description is the only normalised text with the cell's layout. */
  lemma DescriptionOfUnique(c: Cell, d: string)
    requires Normalised(d) && Layout(d) == Layout(c.text)
    ensures d == DescriptionOf(c)
  {
    SameLayoutSame(d, DescriptionOf(c));
  }

  /** The kilometre marker: what follows the first "km" (any case) and optional
      whitespace, as a run of digits, dots and commas; "" when there is none. */
  function PkOf(d: string): (pk: string)
    ensures pk == [] <==> forall i :: 0 <= i <= |d| ==> !KmAt(d, i)
    ensures forall k :: 0 <= k < |pk| ==> IsMarkerChar(pk[k])
    ensures Contains(d, pk)
    ensures forall i :: LeftmostKm(d, i) ==> pk == KmGroup(d, i)
  {
    match SearchKm(d)
    case Some(m) => m
    case None =>
      assert OccursAt(d, 0, []);
      ""
  }

  /** The category: "by accident" exactly when the upper-cased description holds
      both the marker phrase and "ACCIDENTE". */
  function TipoOf(d: string): (t: string)
    ensures t == PorAccidente <==> Contains(Upper(d), ObstaculoFijo) && Contains(Upper(d), Accidente)
    ensures t == ObstaculoFijo || t == PorAccidente
  {
    var u := Upper(d);
    if Contains(u, ObstaculoFijo) && Contains(u, Accidente) then PorAccidente else ObstaculoFijo
  }

  /** Of the two categories, only the accident one contains "ACCIDENTE". */
  lemma AccidentMarksCategory()
    ensures Contains(PorAccidente, Accidente)
    ensures !Contains(ObstaculoFijo, Accidente)
  {
    assert OccursAt(PorAccidente, 19, Accidente);
    assert forall k :: 0 <= k < |ObstaculoFijo| ==> ObstaculoFijo[k] != 'A';
    forall i | 0 <= i <= |ObstaculoFijo| ensures !OccursAt(ObstaculoFijo, i, Accidente) {
      if i + |Accidente| <= |ObstaculoFijo| {
        assert ObstaculoFijo[i..i + |Accidente|][0] != Accidente[0];
      }
    }
  }

  /** The bold fallback for the direction: a bold whose previous sibling mentions
      "sentido" (any case). */
  function SentidoFromBold(b: Bold): Option<string> {
    if b.previousSibling.Some? && Contains(Lower(b.previousSibling.value), "sentido")
    then Some(Strip(b.text)) else None
  }

  /** The direction: the word after the first "sentido" and whitespace in the
      description; failing that, the first bold fallback; else "". */
  function SentidoOf(d: string, c: Cell): (s: string)
    ensures (exists i :: 0 <= i <= |d| && SentidoAt(d, i)) ==>
              s != [] && (forall k :: 0 <= k < |s| ==> IsWordChar(s[k])) && Contains(d, s)
    ensures (forall i :: 0 <= i <= |d| ==> !SentidoAt(d, i)) ==>
              s == FirstSome(c.bolds, SentidoFromBold).GetOr("")
    ensures forall i :: LeftmostSentido(d, i) ==> s == SentidoGroup(d, i)
  {
    match SearchSentido(d)
    case Some(w) => w
    case None => FirstSome(c.bolds, SentidoFromBold).GetOr("")
  }

  /** What every record built from a row satisfies. */
  predicate WellFormed(inc: Incidencia) {
    && inc.activa == inc.fechaFin.None?
    && (inc.fechaFin.Some? ==> inc.horaFin.Some?)
    && (inc.tipo == ObstaculoFijo || inc.tipo == PorAccidente)
    && (inc.tipo == PorAccidente <==>
          Contains(Upper(inc.descripcion), ObstaculoFijo) && Contains(Upper(inc.descripcion), Accidente))
    && Normalised(inc.descripcion)
    && (forall k :: 0 <= k < |inc.pk| ==> IsMarkerChar(inc.pk[k]))
    && Contains(inc.descripcion, inc.pk)
    && inc.comunidad != []
    && NoEdgeSpace(inc.provincia) && NoEdgeSpace(inc.poblacion) && NoEdgeSpace(inc.carretera)
    && (inc.latitud.Some? <==> inc.longitud.Some?)
    && (inc.latitud.Some? <==> inc.precisionGeo.Some?)
  }

  /** parse_row: one record from the first six cells of a row. */
  function ParseRow(cells: seq<Cell>, rowId: string): (inc: Incidencia)
    requires |cells| >= 6
    ensures WellFormed(inc)
    ensures inc.id == rowId
    ensures inc.latitud.None? && inc.longitud.None? && inc.precisionGeo.None?
    ensures inc.horaFin.Some? <==> cells[1].span.Some? && Strip(cells[1].span.value) != []
    ensures inc.comunidad == GetComunidad(inc.provincia)
    ensures Visible(inc.descripcion) == Visible(cells[5].text)
    ensures (inc.fechaInicio, inc.horaInicio) == StartStamp(cells[0])
    ensures EndStamp(inc.horaFin, inc.fechaFin) == EndOf(cells[1])
    ensures inc.nivel == NivelOf(cells[2])
    ensures (inc.provincia, inc.poblacion) == PlaceOf(cells[3])
    ensures inc.carretera == RoadOf(cells[4])
    ensures inc.descripcion == DescriptionOf(cells[5])
    ensures inc.tipo == TipoOf(inc.descripcion) && inc.pk == PkOf(inc.descripcion)
    ensures inc.sentido == SentidoOf(inc.descripcion, cells[5])
  {
    var (fechaInicio, horaInicio) := StartStamp(cells[0]);
    var fin := EndOf(cells[1]);
    var (provincia, poblacion) := PlaceOf(cells[3]);
    var descripcion := DescriptionOf(cells[5]);
    Incidencia(
      id := rowId,
      tipo := TipoOf(descripcion),
      fechaInicio := fechaInicio,
      horaInicio := horaInicio,
      fechaFin := fin.fecha,
      horaFin := fin.hora,
      nivel := NivelOf(cells[2]),
      comunidad := GetComunidad(provincia),
      provincia := provincia,
      poblacion := poblacion,
      carretera := RoadOf(cells[4]),
      pk := PkOf(descripcion),
      sentido := SentidoOf(descripcion, cells[5]),
      descripcion := descripcion,
      activa := fin.fecha.None?,
      latitud := None,
      longitud := None,
      precisionGeo := None)
  }

  // ---------------------------------------------------------------------
  // parse_incidencias

  /** The rows the extractor keeps: the upper-cased text holds the marker phrase
      and there are at least six cells. */
  predicate Retained(row: Row) {
    Contains(Upper(row.text), ObstaculoFijo) && |row.cells| >= 6
  }

  /** The record of one retained row. */
  function RowRecord(row: Row): Incidencia
    requires Retained(row)
  {
    ParseRow(row.cells, ExtractId(row))
  }

  /** parse_incidencias: one record per retained row, in row order. */
  function ParseIncidencias(rows: seq<Row>): (r: seq<Incidencia>)
    ensures |r| <= |rows|
    ensures |r| == Count(rows, Retained)
  {
    FilterCount(rows, Retained);
    Map(Filter(rows, Retained), RowRecord)
  }

  /** Every extracted record is well formed and carries a numeric id. */
  lemma ParseIncidenciasWellFormed(rows: seq<Row>)
    ensures forall k :: 0 <= k < |ParseIncidencias(rows)| ==>
              WellFormed(ParseIncidencias(rows)[k]) && AllDigits(ParseIncidencias(rows)[k].id)
  {
    var kept := Filter(rows, Retained);
    forall k | 0 <= k < |ParseIncidencias(rows)|
      ensures WellFormed(ParseIncidencias(rows)[k]) && AllDigits(ParseIncidencias(rows)[k].id)
    {
      assert ParseIncidencias(rows)[k] == RowRecord(kept[k]);
    }
  }

  /** Rows are extracted independently of each other: the records of a
      concatenation are the records of each part, in order. */
  lemma {:induction false} ParseIncidenciasAppend(a: seq<Row>, b: seq<Row>)
    ensures ParseIncidencias(a + b) == ParseIncidencias(a) + ParseIncidencias(b)
  {
    FilterAppend(a, b, Retained);
    MapAppend(Filter(a, Retained), Filter(b, Retained), RowRecord);
  }

  /** The records depend only on the retained rows. */
  lemma SameKeptRowsSameRecords(x: seq<Row>, y: seq<Row>)
    requires Filter(x, Retained) == Filter(y, Retained)
    ensures ParseIncidencias(x) == ParseIncidencias(y)
  {
  }

  /** A row that is not retained (no marker phrase, or fewer than six cells)
      leaves the records of the rows around it exactly as they were. */
  lemma {:induction false} DroppedRowChangesNothing(a: seq<Row>, row: Row, b: seq<Row>)
    requires !Retained(row)
    ensures ParseIncidencias(a + [row] + b) == ParseIncidencias(a + b)
  {
    FilterSkipsRejected(a, row, b, Retained);
    SameKeptRowsSameRecords(a + [row] + b, a + b);
  }

  /** A single retained row yields its own record. */
  lemma {:induction false} OneRetainedRow(row: Row)
    requires Retained(row)
    ensures ParseIncidencias([row]) == [ParseRow(row.cells, ExtractId(row))]
  {
    assert Filter([row], Retained) == [row];
    MapSingleton(row, RowRecord);
  }

  /** A retained row contributes exactly one record, built from its cells and id. */
  lemma {:induction false} RetainedRowYieldsOne(a: seq<Row>, row: Row, b: seq<Row>)
    requires Retained(row)
    ensures ParseIncidencias(a + [row] + b)
            == ParseIncidencias(a) + [ParseRow(row.cells, ExtractId(row))] + ParseIncidencias(b)
  {
    ParseIncidenciasAppend(a + [row], b);
    ParseIncidenciasAppend(a, [row]);
    OneRetainedRow(row);
  }

  // ---------------------------------------------------------------------
  // build_url

  const DgtBaseUrl: string := "https://infocar.dgt.es/etraffic/Incidencias"
  /** The fixed parameters that close every query. */
  const QueryTail: string :=
    "&" + "caracter=acontecimiento" + "&accion_consultar=Consultar"
    + "&IncidenciasOTROS=IncidenciasOTROS" + "&ordenacion=fechahora_ini-DESC"
  /** The unfiltered URL of scraper.py:16. */
  const DgtUrl: string := DgtBaseUrl + "?ca=" + "&provIci=" + QueryTail

  /** Decimal text of a number, as the ids are written. */
  function Decimal(n: nat): (s: string)
    ensures s != [] && AllDigits(s)
    ensures s[0] == '0' ==> n == 0 && |s| == 1
  {
    var d := ['0' + (n % 10) as char];
    if n < 10 then d else Decimal(n / 10) + d
  }

  /** The number a digit string denotes. */
  function DigitsValue(s: string): nat
    requires AllDigits(s)
  {
    if s == [] then 0 else DigitsValue(s[..|s| - 1]) * 10 + (s[|s| - 1] as int - '0' as int)
  }

  /** `Decimal` writes the number it is given. */
  lemma {:induction false} DecimalValue(n: nat)
    ensures DigitsValue(Decimal(n)) == n
  {
    if n >= 10 {
      var d := ['0' + (n % 10) as char];
      DecimalValue(n / 10);
      assert (Decimal(n / 10) + d)[..|Decimal(n / 10)|] == Decimal(n / 10);
    }
  }

  /** The id for an optional name: "" when the name is missing or empty or when
      its upper-cased form is not a key of the table (no stripping). */
  function IdFor(table: map<string, nat>, name: Option<string>): (id: string)
    ensures AllDigits(id)
    ensures id == [] <==> name.None? || name.value == [] || Upper(name.value) !in table
    ensures id != [] ==> DigitsValue(id) == table[Upper(name.value)]
    ensures id != [] && id[0] == '0' ==> |id| == 1
  {
    if name.Some? && name.value != [] && Upper(name.value) in table then
      DecimalValue(table[Upper(name.value)]);
      Decimal(table[Upper(name.value)])
    else ""
  }

  /** build_url: the upstream URL filtered by community and province; the
      filters only insert their ids into the unfiltered URL. */
  function BuildUrl(comunidad: Option<string>, provincia: Option<string>): (url: string)
    ensures |url| == |DgtUrl| + |IdFor(ComunidadesIds, comunidad)| + |IdFor(ProvinciasIds, provincia)|
  {
    DgtBaseUrl + "?ca=" + IdFor(ComunidadesIds, comunidad)
      + "&provIci=" + IdFor(ProvinciasIds, provincia) + QueryTail
  }

  /** Reads two parameter values back out of a URL made of `head`, a value,
      `key`, a value and a tail: each value runs up to the next '&'. */
  function DecodeWith(url: string, head: string, key: string): Option<(string, string)> {
    if |url| < |head| || url[..|head|] != head then None
    else
      var rest := url[|head|..];
      var first := Before(rest, '&');
      var tail := rest[|first|..];
      if |tail| < |key| || tail[..|key|] != key then None
      else Some((first, Before(tail[|key|..], '&')))
  }

  /** Reads the two filter ids back out of a URL shaped like `BuildUrl`'s. */
  function DecodeFilters(url: string): Option<(string, string)> {
    DecodeWith(url, DgtBaseUrl + "?ca=", "&provIci=")
  }

  lemma {:induction false} BeforeConcat(a: string, b: string, c: char)
    requires c !in a && b != [] && b[0] == c
    ensures Before(a + b, c) == a
    decreases |a|
  {
    if a == [] {
      assert a + b == b;
    } else {
      assert (a + b)[1..] == a[1..] + b;
      BeforeConcat(a[1..], b, c);
    }
  }

  /** Two values free of '&', each behind its key, are read back when the
      second key and the tail both open a new parameter. */
  lemma DecodeWithRoundTrip(head: string, first: string, key: string, second: string, tail: string)
    requires '&' !in first && '&' !in second
    requires key != [] && key[0] == '&' && tail != [] && tail[0] == '&'
    ensures DecodeWith(head + first + key + second + tail, head, key) == Some((first, second))
  {
    var url := head + first + key + second + tail;
    assert url == head + (first + (key + (second + tail)));
    assert url[..|head|] == head;
    var rest := url[|head|..];
    assert rest == first + (key + (second + tail));
    BeforeConcat(first, key + (second + tail), '&');
    var after := rest[|first|..];
    assert after == key + (second + tail);
    assert after[..|key|] == key;
    assert after[|key|..] == second + tail;
    BeforeConcat(second, tail, '&');
  }

  lemma QueryTailOpensParameter()
    ensures QueryTail != [] && QueryTail[0] == '&'
  {
  }

  /** The URL round-trips: both filter ids can be read back from it. */
  lemma {:induction false} BuildUrlDecodes(comunidad: Option<string>, provincia: Option<string>)
    ensures DecodeFilters(BuildUrl(comunidad, provincia))
            == Some((IdFor(ComunidadesIds, comunidad), IdFor(ProvinciasIds, provincia)))
  {
    var ca := IdFor(ComunidadesIds, comunidad);
    var prov := IdFor(ProvinciasIds, provincia);
    assert forall i :: 0 <= i < |ca| ==> ca[i] != '&';
    assert forall i :: 0 <= i < |prov| ==> prov[i] != '&';
    QueryTailOpensParameter();
    DecodeWithRoundTrip(DgtBaseUrl + "?ca=", ca, "&provIci=", prov, QueryTail);
  }

  /** Without filters the builder yields the fixed URL of the module. */
  lemma BuildUrlUnfiltered()
    ensures BuildUrl(None, None) == DgtUrl
  {
    var head := DgtBaseUrl + "?ca=";
    assert head + "" == head;
    assert head + "&provIci=" + "" == head + "&provIci=";
  }

  // ---------------------------------------------------------------------
  // filtrar_activas

  predicate IsActiva(inc: Incidencia) {
    inc.activa
  }

  /** filtrar_activas: the active records, in their original order. */
  function FiltrarActivas(incs: seq<Incidencia>): (r: seq<Incidencia>)
    ensures forall x :: x in r <==> x in incs && x.activa
    ensures |r| == Count(incs, IsActiva)
  {
    FilterCount(incs, IsActiva);
    Filter(incs, IsActiva)
  }

  /** Filtering a concatenation filters each part. */
  lemma FiltrarActivasAppend(a: seq<Incidencia>, b: seq<Incidencia>)
    ensures FiltrarActivas(a + b) == FiltrarActivas(a) + FiltrarActivas(b)
  {
    FilterAppend(a, b, IsActiva);
  }

  /** A single record is kept exactly when it is active. */
  lemma FiltrarActivasSingleton(x: Incidencia)
    ensures FiltrarActivas([x]) == if x.activa then [x] else []
  {
  }

  /** Filtering the active records twice is filtering once. */
  lemma FiltrarActivasIdempotent(incs: seq<Incidencia>)
    ensures FiltrarActivas(FiltrarActivas(incs)) == FiltrarActivas(incs)
  {
    FilterIdempotent(incs, IsActiva);
  }
}
