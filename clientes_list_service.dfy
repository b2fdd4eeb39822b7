/** The printable documents of a trip's customer list: the manifest
    ("listado"), one table row per selected customer, and the address labels
    ("etiquetas"), two per row. The jsPDF document is recorded as the
    sequence of drawing events the generators issue, with positions in
    millimetres as exact reals. */
module ClientesListService {
  import opened Wrappers
  import opened Text
  import opened Models

  /** One centred table cell: its text, the x of its centre and its width. */
  datatype Cell = Cell(text: string, center: real, width: real)

  /** The five lines printed on an address label. */
  datatype LabelFields = LabelFields(recipient: string, phone: string, ci: string, municipality: string, sender: string)

  datatype PdfEvent =
    | AddPage
    | Header(y: real, cells: seq<Cell>)
    | Rule(x1: real, x2: real, y: real)
    | Row(y: real, cells: seq<Cell>)
    | Label(x: real, y: real, width: real, height: real, fields: LabelFields)

  /** How a generator ends: an alert and no document, the document handed
      back to the caller, or the document saved under a file name. */
  datatype ExportResult = Alerted(message: string) | Returned(doc: seq<PdfEvent>) | Saved(doc: seq<PdfEvent>, fileName: string)

  const NoSelectionMessage := "Por favor selecciona al menos un cliente"

  // ---------------------------------------------------------------- cells

  /** JavaScript's `s || fallback` on a string. */
  function OrElse(s: string, fallback: string): string {
    if s != "" then s else fallback
  }

  /** An optional text with a fallback for a missing or empty value. */
  function TextOr(o: Option<string>, fallback: string): (r: string)
    ensures FilledText(o) ==> r == o.value
    ensures !FilledText(o) ==> r == fallback
  {
    if o.Some? then OrElse(o.value, fallback) else fallback
  }

  /** The phone cell as the manifest writes it: the template literal prints
      `undefined` for a missing phone, so the string is never empty and the
      `'-'` fallback never applies. */
  function PhoneCellAsWritten(phone: Option<int>): (s: string)
    ensures s == "+ " + (if phone.Some? then IntToString(phone.value) else "undefined")
    ensures s != "-"
  {
    OrElse("+ " + (if phone.Some? then IntToString(phone.value) else "undefined"), "-")
  }

  lemma PhoneFallbackNeverApplies(phone: Option<int>)
    ensures StartsWith(PhoneCellAsWritten(phone), "+ ")
    ensures PhoneCellAsWritten(phone) != "-"
    ensures PhoneCellAsWritten(None) == "+ undefined"
  {
  }

  /** The phone cell with the evident intent: `+ <phone>` when there is a
      phone, `-` otherwise. */
  function PhoneCell(phone: Option<int>): (r: string)
    ensures r == "-" <==> phone.None?
    ensures phone.Some? ==> r == PhoneCellAsWritten(phone)
  {
    if phone.Some? then "+ " + IntToString(phone.value) else "-"
  }

  /** The first cell: the customer's number, marked `* ` when delivered. */
  function NumberCell(c: Cliente): (r: string)
    ensures StartsWith(r, "* ") <==> c.delivered
  {
    if c.delivered then "* " + IntToString(c.number) else IntToString(c.number)
  }

  /** The number can be read back from its cell. */
  lemma NumberCellRoundTrip(c: Cliente)
    ensures var digits := if c.delivered then NumberCell(c)[2..] else NumberCell(c);
      digits != [] && ParseInt(digits) == c.number
  {
    IntToStringRoundTrip(c.number);
    if c.delivered {
      assert NumberCell(c)[2..] == IntToString(c.number);
    }
  }

  /** The manifest has eight columns. */
  const ColumnCount := 8

  const Headers := ["#", "Nombre cliente", "Destino", "Paq.", "Teléfono", "CI", "Familiar", "Anotaciones"]

  /** The eight texts of a customer's manifest row: number, name, destination,
      packages, phone, identity card, family member and notes, with `''` as
      the fallback of the first four and `'-'` of the last four (a fallback
      that never applies to the phone cell as written). */
  function ListadoCells(c: Cliente): (r: seq<string>)
    ensures |r| == ColumnCount
  {
    [ NumberCell(c),
      OrElse(c.name, ""),
      OrElse(c.destination, ""),
      OrElse(IntToString(c.packages), ""),
      PhoneCellAsWritten(c.phone),
      TextOr(c.identity_card, "-"),
      TextOr(c.family_name, "-"),
      TextOr(c.description, "-") ]
  }

  /** What each column of a customer's row shows; the phone column always
      starts with `+ `, and reads `+ undefined` without a phone. */
  lemma ListadoCellsShow(c: Cliente)
    ensures var r := ListadoCells(c);
      r[0] == NumberCell(c) && r[1] == c.name && r[2] == c.destination
      && r[3] == IntToString(c.packages) && r[4] == PhoneCellAsWritten(c.phone)
      && StartsWith(r[4], "+ ") && (c.phone.None? ==> r[4] == "+ undefined")
      && (FilledText(c.identity_card) ==> r[5] == c.identity_card.value)
      && (!FilledText(c.identity_card) ==> r[5] == "-")
      && (FilledText(c.family_name) ==> r[6] == c.family_name.value)
      && (!FilledText(c.family_name) ==> r[6] == "-")
      && (FilledText(c.description) ==> r[7] == c.description.value)
      && (!FilledText(c.description) ==> r[7] == "-")
  {
    PhoneFallbackNeverApplies(c.phone);
  }

  /** The row the manifest evidently means to print: the same cells, with
      `-` in the phone column of a customer without a phone. */
  function ListadoCellsIntended(c: Cliente): (r: seq<string>)
    ensures |r| == ColumnCount
    ensures r[4] == "-" <==> c.phone.None?
    ensures forall k :: 0 <= k < ColumnCount && k != 4 ==> r[k] == ListadoCells(c)[k]
  {
    ListadoCells(c)[4 := PhoneCell(c.phone)]
  }

  /** The printed row and the intended row differ exactly for a customer
      without a phone, and then only in the phone column. */
  lemma IntendedDiffersWithoutPhone(c: Cliente)
    ensures ListadoCellsIntended(c) == ListadoCells(c) <==> c.phone.Some?
    ensures c.phone.None? ==> ListadoCells(c)[4] == "+ undefined" && ListadoCellsIntended(c)[4] == "-"
  {
    PhoneFallbackNeverApplies(c.phone);
    if c.phone.None? {
      assert ListadoCellsIntended(c)[4] != ListadoCells(c)[4];
    }
  }

  // ---------------------------------------------------------------- columns

  const ColumnPercents: seq<real> := [3.0, 20.0, 10.0, 3.0, 12.0, 12.0, 20.0, 20.0]

  function Sum(ws: seq<real>): real {
    if ws == [] then 0.0 else ws[0] + Sum(ws[1..])
  }

  /** Each column's share of the table width. */
  function ColumnWidths(tableWidth: real): (ws: seq<real>)
    ensures |ws| == |ColumnPercents| == ColumnCount
  {
    seq(|ColumnPercents|, i requires 0 <= i < |ColumnPercents| => ColumnPercents[i] / 100.0 * tableWidth)
  }

  lemma SumOfEight(ws: seq<real>)
    requires |ws| == 8
    ensures Sum(ws) == ws[0] + ws[1] + ws[2] + ws[3] + ws[4] + ws[5] + ws[6] + ws[7]
  {
    assert Sum(ws[7..]) == ws[7] + Sum(ws[8..]);
    assert Sum(ws[6..]) == ws[6] + Sum(ws[7..]);
    assert Sum(ws[5..]) == ws[5] + Sum(ws[6..]);
    assert Sum(ws[4..]) == ws[4] + Sum(ws[5..]);
    assert Sum(ws[3..]) == ws[3] + Sum(ws[4..]);
    assert Sum(ws[2..]) == ws[2] + Sum(ws[3..]);
    assert Sum(ws[1..]) == ws[1] + Sum(ws[2..]);
  }

  /** The percentages add up to 100, so the columns fill the table exactly. */
  lemma ColumnWidthsFillTable(tableWidth: real)
    ensures Sum(ColumnPercents) == 100.0
    ensures Sum(ColumnWidths(tableWidth)) == tableWidth
  {
    var ws := ColumnWidths(tableWidth);
    SumOfEight(ColumnPercents);
    SumOfEight(ws);
    assert ws[0] == 3.0 / 100.0 * tableWidth && ws[1] == 20.0 / 100.0 * tableWidth;
    assert ws[2] == 10.0 / 100.0 * tableWidth && ws[3] == 3.0 / 100.0 * tableWidth;
    assert ws[4] == 12.0 / 100.0 * tableWidth && ws[5] == 12.0 / 100.0 * tableWidth;
    assert ws[6] == 20.0 / 100.0 * tableWidth && ws[7] == 20.0 / 100.0 * tableWidth;
  }

  /** The cells of one table line laid left to right from `x`, each centred in its column. */
  function PlaceCells(texts: seq<string>, widths: seq<real>, x: real): (cells: seq<Cell>)
    requires |texts| == |widths|
    ensures |cells| == |texts|
    decreases |texts|
  {
    if texts == [] then []
    else [Cell(texts[0], x + widths[0] / 2.0, widths[0])] + PlaceCells(texts[1..], widths[1..], x + widths[0])
  }

  function CellTexts(cells: seq<Cell>): (r: seq<string>)
    ensures |r| == |cells|
  {
    if cells == [] then [] else [cells[0].text] + CellTexts(cells[1..])
  }

  /** A placed line prints exactly its texts, in order. */
  lemma {:induction false} PlaceCellsTexts(texts: seq<string>, widths: seq<real>, x: real)
    requires |texts| == |widths|
    ensures CellTexts(PlaceCells(texts, widths, x)) == texts
    decreases |texts|
  {
    if texts != [] {
      var rest := PlaceCells(texts[1..], widths[1..], x + widths[0]);
      PlaceCellsTexts(texts[1..], widths[1..], x + widths[0]);
      assert ([Cell(texts[0], x + widths[0] / 2.0, widths[0])] + rest)[1..] == rest;
    }
  }

  /** With no negative widths, every cell centre lies inside the line's span. */
  lemma {:induction false} PlaceCellsInside(texts: seq<string>, widths: seq<real>, x: real)
    requires |texts| == |widths|
    requires forall i :: 0 <= i < |widths| ==> widths[i] >= 0.0
    ensures Sum(widths) >= 0.0
    ensures forall c :: c in PlaceCells(texts, widths, x) ==> x <= c.center <= x + Sum(widths)
    decreases |texts|
  {
    if texts != [] {
      PlaceCellsInside(texts[1..], widths[1..], x + widths[0]);
    }
  }

  /** The `forEach` over one line's cells: the x cursor starts at `x0` and
      ends `Sum(widths)` further right. */
  method LayOutLine(texts: seq<string>, widths: seq<real>, x0: real) returns (cells: seq<Cell>, x: real)
    requires |texts| == |widths|
    ensures cells == PlaceCells(texts, widths, x0)
    ensures x == x0 + Sum(widths)
  {
    cells := [];
    x := x0;
    var i := 0;
    while i < |texts|
      invariant 0 <= i <= |texts|
      invariant cells + PlaceCells(texts[i..], widths[i..], x) == PlaceCells(texts, widths, x0)
      invariant x + Sum(widths[i..]) == x0 + Sum(widths)
    {
      assert texts[i..][1..] == texts[i + 1..] && widths[i..][1..] == widths[i + 1..];
      var cellWidth := widths[i];
      cells := cells + [Cell(texts[i], x + cellWidth / 2.0, cellWidth)];
      x := x + cellWidth;
      i := i + 1;
    }
    assert texts[i..] == [] && widths[i..] == [];
  }

  // ---------------------------------------------------------------- manifest

  const ListadoMargin: real := 6.0
  const RowStep: real := 8.0

  /** Where the next row goes: back at the margin on a new page once the
      cursor is below `pageHeight - 15`. */
  function RowY(y: real, pageHeight: real): real {
    if y > pageHeight - 15.0 then ListadoMargin else y
  }

  /** The events of one customer's row: the page break it needs, then the row. */
  function RowBlock(c: Cliente, y: real, pageHeight: real, widths: seq<real>): seq<PdfEvent>
    requires |widths| == ColumnCount
  {
    (if y > pageHeight - 15.0 then [AddPage] else [])
    + [Row(RowY(y, pageHeight), PlaceCells(ListadoCells(c), widths, ListadoMargin))]
  }

  /** The rows from the current customer on, with the cursor at `y`; each
      row moves the cursor 8 further down. */
  function RowsFrom(cs: seq<Cliente>, y: real, pageHeight: real, widths: seq<real>): seq<PdfEvent>
    requires |widths| == ColumnCount
    decreases |cs|
  {
    if cs == [] then []
    else RowBlock(cs[0], y, pageHeight, widths) + RowsFrom(cs[1..], RowY(y, pageHeight) + RowStep, pageHeight, widths)
  }

  /** The table width is the page width less both margins. */
  function ListadoWidths(pageWidth: real): (ws: seq<real>)
    ensures |ws| == ColumnCount
  {
    ColumnWidths(pageWidth - ListadoMargin * 2.0)
  }

  /** The top of the manifest: the header line at `margin + 2` and a rule 3
      below it across the table. */
  function ListadoTop(pageWidth: real): seq<PdfEvent> {
    [Header(ListadoMargin + 2.0, PlaceCells(Headers, ListadoWidths(pageWidth), ListadoMargin)),
     Rule(ListadoMargin, pageWidth - ListadoMargin, ListadoMargin + 5.0)]
  }

  /** The whole manifest: its top, then the rows from `margin + 11`. */
  function ListadoDoc(cs: seq<Cliente>, pageWidth: real, pageHeight: real): seq<PdfEvent> {
    ListadoTop(pageWidth) + RowsFrom(cs, ListadoMargin + 11.0, pageHeight, ListadoWidths(pageWidth))
  }

  /** The file name: the trip's id, or `sin_viaje` without a trip or id, then the date. */
  function TripPart(viaje: Option<Viaje>): (r: string)
    ensures r == "sin_viaje" <==> !(viaje.Some? && FilledNumber(viaje.value.id))
  {
    if viaje.Some? && FilledNumber(viaje.value.id) then
      IntToString(viaje.value.id.value)
    else "sin_viaje"
  }

  function FileName(kind: string, viaje: Option<Viaje>, today: string): string {
    kind + "_viaje_" + TripPart(viaje) + "_" + today + ".pdf"
  }

  /** The trip id can be read back from a file name. */
  lemma FileNameNamesTrip(kind: string, viaje: Option<Viaje>, today: string)
    requires viaje.Some? && FilledNumber(viaje.value.id)
    ensures var name := FileName(kind, viaje, today);
      var start := |kind| + 7;
      var stop := |name| - |today| - 5;
      0 <= start < stop <= |name| && ParseInt(name[start..stop]) == viaje.value.id.value
  {
    var name := FileName(kind, viaje, today);
    var id := IntToString(viaje.value.id.value);
    IntToStringRoundTrip(viaje.value.id.value);
    assert name == kind + "_viaje_" + id + "_" + today + ".pdf";
    assert name[|kind| + 7..|name| - |today| - 5] == id;
  }

  lemma PairOf<T>(a: T, b: T)
    ensures [a] + [b] == [a, b]
  {
  }

  lemma SeqAssoc<T>(a: seq<T>, b: seq<T>, c: seq<T>)
    ensures (a + b) + c == a + (b + c)
  {
  }

  /** `RowsFrom` with the rows drawn so far in front, one block at a time. */
  function RowsAfter(doc: seq<PdfEvent>, cs: seq<Cliente>, y: real, pageHeight: real, widths: seq<real>): seq<PdfEvent>
    requires |widths| == ColumnCount
    decreases |cs|
  {
    if cs == [] then doc
    else RowsAfter(doc + RowBlock(cs[0], y, pageHeight, widths), cs[1..], RowY(y, pageHeight) + RowStep, pageHeight, widths)
  }

  lemma {:induction false} RowsAfterIsAppend(doc: seq<PdfEvent>, cs: seq<Cliente>, y: real, pageHeight: real, widths: seq<real>)
    requires |widths| == ColumnCount
    ensures RowsAfter(doc, cs, y, pageHeight, widths) == doc + RowsFrom(cs, y, pageHeight, widths)
    decreases |cs|
  {
    if cs == [] {
      assert doc + [] == doc;
    } else {
      var block := RowBlock(cs[0], y, pageHeight, widths);
      var nextY := RowY(y, pageHeight) + RowStep;
      var rest := RowsFrom(cs[1..], nextY, pageHeight, widths);
      RowsAfterIsAppend(doc + block, cs[1..], nextY, pageHeight, widths);
      assert RowsAfter(doc, cs, y, pageHeight, widths) == (doc + block) + rest;
      assert RowsFrom(cs, y, pageHeight, widths) == block + rest;
      SeqAssoc(doc, block, rest);
    }
  }

  lemma RowsAfterStep(doc: seq<PdfEvent>, cs: seq<Cliente>, i: nat, y: real, pageHeight: real, widths: seq<real>)
    requires |widths| == ColumnCount && i < |cs|
    ensures RowsAfter(doc, cs[i..], y, pageHeight, widths)
         == RowsAfter(doc + RowBlock(cs[i], y, pageHeight, widths), cs[i + 1..], RowY(y, pageHeight) + RowStep, pageHeight, widths)
  {
    assert cs[i..][0] == cs[i] && cs[i..][1..] == cs[i + 1..];
  }

  /** Drawing a row, after the page break it needs, appends its block. */
  lemma AppendRowBlock(before: seq<PdfEvent>, c: Cliente, y: real, pageHeight: real, widths: seq<real>, cells: seq<Cell>)
    requires |widths| == ColumnCount && cells == PlaceCells(ListadoCells(c), widths, ListadoMargin)
    ensures y > pageHeight - 15.0 ==>
      (before + [AddPage]) + [Row(ListadoMargin, cells)] == before + RowBlock(c, y, pageHeight, widths)
    ensures y <= pageHeight - 15.0 ==>
      before + [Row(y, cells)] == before + RowBlock(c, y, pageHeight, widths)
  {
    if y > pageHeight - 15.0 {
      SeqAssoc(before, [AddPage], [Row(ListadoMargin, cells)]);
    }
  }

  /** The row loop of the manifest: from the cursor `y0`, one block per
      customer in selection order. */
  method LayOutRows(selected: seq<Cliente>, y0: real, pageHeight: real, widths: seq<real>)
    returns (doc: seq<PdfEvent>, y: real)
    requires |widths| == ColumnCount
    ensures doc == RowsFrom(selected, y0, pageHeight, widths)
  {
    doc := [];
    y := y0;
    var i := 0;
    while i < |selected|
      invariant 0 <= i <= |selected|
      invariant RowsAfter(doc, selected[i..], y, pageHeight, widths) == RowsAfter([], selected, y0, pageHeight, widths)
    {
      RowsAfterStep(doc, selected, i, y, pageHeight, widths);
      ghost var before, rowTop := doc, y;
      if y > pageHeight - 15.0 {
        doc := doc + [AddPage];
        y := ListadoMargin;
      }
      var rowCells, x := LayOutLine(ListadoCells(selected[i]), widths, ListadoMargin);
      AppendRowBlock(before, selected[i], rowTop, pageHeight, widths, rowCells);
      doc := doc + [Row(y, rowCells)];
      y := y + RowStep;
      i := i + 1;
    }
    RowsAfterIsAppend([], selected, y0, pageHeight, widths);
  }

  lemma ListadoDocParts(cs: seq<Cliente>, pageWidth: real, pageHeight: real, top: seq<PdfEvent>, rows: seq<PdfEvent>)
    requires top == ListadoTop(pageWidth)
    requires rows == RowsFrom(cs, ListadoMargin + 11.0, pageHeight, ListadoWidths(pageWidth))
    ensures top + rows == ListadoDoc(cs, pageWidth, pageHeight)
  {
  }

  /** The top of the manifest: the column widths, the header line and the
      rule under it; the cursor ends where the first row goes. */
  method LayOutTop(pageWidth: real) returns (doc: seq<PdfEvent>, widths: seq<real>, y: real)
    ensures doc == ListadoTop(pageWidth) && widths == ListadoWidths(pageWidth)
    ensures y == ListadoMargin + 11.0
  {
    var margin := ListadoMargin;
    var tableWidth := pageWidth - margin * 2.0;
    y := margin + 2.0;
    widths := ColumnWidths(tableWidth);
    var headerCells, _ := LayOutLine(Headers, widths, margin);
    doc := [Header(y, headerCells)];
    y := y + 3.0;
    doc := doc + [Rule(margin, pageWidth - margin, y)];
    PairOf(Header(margin + 2.0, headerCells), Rule(margin, pageWidth - margin, y));
    ListadoTopParts(pageWidth, headerCells);
    y := y + 6.0;
  }

  lemma ListadoTopParts(pageWidth: real, headerCells: seq<Cell>)
    requires headerCells == PlaceCells(Headers, ListadoWidths(pageWidth), ListadoMargin)
    ensures ListadoTop(pageWidth) ==
      [Header(ListadoMargin + 2.0, headerCells), Rule(ListadoMargin, pageWidth - ListadoMargin, ListadoMargin + 5.0)]
  {
  }

  /** `generateListadoPDF`: nothing but an alert for an empty selection;
      otherwise the header, the rule and one row per customer, handed back
      or saved. */
  method GenerateListado(selected: seq<Cliente>, viaje: Option<Viaje>, returnDoc: bool,
                         pageWidth: real, pageHeight: real, today: string)
    returns (result: ExportResult)
    ensures selected == [] ==> result == Alerted(NoSelectionMessage)
    ensures selected != [] && returnDoc ==> result == Returned(ListadoDoc(selected, pageWidth, pageHeight))
    ensures selected != [] && !returnDoc ==>
      result == Saved(ListadoDoc(selected, pageWidth, pageHeight), FileName("clientes", viaje, today))
  {
    if |selected| == 0 {
      return Alerted(NoSelectionMessage);
    }
    var doc, widths, y := LayOutTop(pageWidth);
    var rows;
    rows, y := LayOutRows(selected, y, pageHeight, widths);
    ListadoDocParts(selected, pageWidth, pageHeight, doc, rows);
    doc := doc + rows;
    if returnDoc {
      return Returned(doc);
    }
    return Saved(doc, FileName("clientes", viaje, today));
  }

  /** Every row event lies between the margin and `pageHeight - 15`. */
  predicate RowsWithin(events: seq<PdfEvent>, pageHeight: real) {
    forall e :: e in events && e.Row? ==> ListadoMargin <= e.y <= pageHeight - 15.0
  }

  lemma RowsWithinAppend(a: seq<PdfEvent>, b: seq<PdfEvent>, pageHeight: real)
    requires RowsWithin(a, pageHeight) && RowsWithin(b, pageHeight)
    ensures RowsWithin(a + b, pageHeight)
  {
  }

  lemma RowBlockWithin(c: Cliente, y: real, pageHeight: real, widths: seq<real>)
    requires |widths| == ColumnCount && pageHeight >= 21.0 && y >= ListadoMargin
    ensures RowsWithin(RowBlock(c, y, pageHeight, widths), pageHeight)
  {
  }

  /** Every row is drawn between the margin and `pageHeight - 15`,
      provided a page holds at least one row below the margin. */
  lemma {:induction false} RowsOnPage(cs: seq<Cliente>, y: real, pageHeight: real, widths: seq<real>)
    requires |widths| == ColumnCount && pageHeight >= 21.0 && y >= ListadoMargin
    ensures RowsWithin(RowsFrom(cs, y, pageHeight, widths), pageHeight)
    decreases |cs|
  {
    if cs != [] {
      var nextY := RowY(y, pageHeight) + RowStep;
      var block := RowBlock(cs[0], y, pageHeight, widths);
      var rest := RowsFrom(cs[1..], nextY, pageHeight, widths);
      RowBlockWithin(cs[0], y, pageHeight, widths);
      RowsOnPage(cs[1..], nextY, pageHeight, widths);
      RowsWithinAppend(block, rest, pageHeight);
    }
  }

  function RowHead(e: PdfEvent): seq<seq<string>> {
    if e.Row? then [CellTexts(e.cells)] else []
  }

  function RowContents(events: seq<PdfEvent>): seq<seq<string>> {
    if events == [] then [] else RowHead(events[0]) + RowContents(events[1..])
  }

  lemma {:induction false} RowContentsAppend(a: seq<PdfEvent>, b: seq<PdfEvent>)
    ensures RowContents(a + b) == RowContents(a) + RowContents(b)
  {
    if a == [] {
      assert a + b == b;
    } else {
      var ab := a + b;
      assert ab[0] == a[0] && ab[1..] == a[1..] + b;
      assert RowContents(ab) == RowHead(a[0]) + RowContents(a[1..] + b);
      RowContentsAppend(a[1..], b);
      SeqAssoc(RowHead(a[0]), RowContents(a[1..]), RowContents(b));
    }
  }

  lemma RowBlockContents(c: Cliente, y: real, pageHeight: real, widths: seq<real>)
    requires |widths| == ColumnCount
    ensures RowContents(RowBlock(c, y, pageHeight, widths)) == [ListadoCells(c)]
  {
    var row := Row(RowY(y, pageHeight), PlaceCells(ListadoCells(c), widths, ListadoMargin));
    var pre: seq<PdfEvent> := if y > pageHeight - 15.0 then [AddPage] else [];
    RowContentsAppend(pre, [row]);
    assert RowContents(pre) == [] by {
      if pre != [] { assert RowContents(pre) == [] + RowContents([]); }
    }
    assert RowContents([row]) == [CellTexts(row.cells)] + RowContents([]);
    PlaceCellsTexts(ListadoCells(c), widths, ListadoMargin);
  }

  /** The cell texts of each selected customer, in selection order. */
  function ListadoRows(cs: seq<Cliente>): (rows: seq<seq<string>>)
    ensures |rows| == |cs| && forall k :: 0 <= k < |cs| ==> rows[k] == ListadoCells(cs[k])
  {
    if cs == [] then [] else [ListadoCells(cs[0])] + ListadoRows(cs[1..])
  }

  /** The rows print the selected customers, each once, in selection order. */
  lemma {:induction false} RowsFollowSelection(cs: seq<Cliente>, y: real, pageHeight: real, widths: seq<real>)
    requires |widths| == ColumnCount
    ensures RowContents(RowsFrom(cs, y, pageHeight, widths)) == ListadoRows(cs)
    decreases |cs|
  {
    if cs != [] {
      var nextY := RowY(y, pageHeight) + RowStep;
      var block := RowBlock(cs[0], y, pageHeight, widths);
      var rest := RowsFrom(cs[1..], nextY, pageHeight, widths);
      RowContentsAppend(block, rest);
      RowBlockContents(cs[0], y, pageHeight, widths);
      RowsFollowSelection(cs[1..], nextY, pageHeight, widths);
    }
  }

  /** The manifest's header names the columns and its rows are the selection's. */
  lemma ListadoContents(cs: seq<Cliente>, pageWidth: real, pageHeight: real)
    ensures var doc := ListadoDoc(cs, pageWidth, pageHeight);
      doc[0].Header? && CellTexts(doc[0].cells) == Headers && RowContents(doc) == ListadoRows(cs)
  {
    var widths := ListadoWidths(pageWidth);
    var top := ListadoTop(pageWidth);
    var rest := RowsFrom(cs, ListadoMargin + 11.0, pageHeight, widths);
    ListadoDocParts(cs, pageWidth, pageHeight, top, rest);
    PlaceCellsTexts(Headers, widths, ListadoMargin);
    RowContentsAppend(top, rest);
    assert RowContents(top) == [] by {
      assert top[1..][1..] == [];
    }
    RowsFollowSelection(cs, ListadoMargin + 11.0, pageHeight, widths);
  }

  // ---------------------------------------------------------------- labels

  const LabelMargin: real := 5.0
  const LabelHeight: real := 90.0

  /** The label texts: the family member when given, else the customer; the
      phone or "No disponible"; the card or "No disponible"; the destination;
      and the customer as sender. */
  function LabelFieldsOf(c: Cliente): (f: LabelFields)
    ensures f.recipient == "Destinatario: " + (if FilledText(c.family_name) then c.family_name.value else c.name)
    ensures f.phone == "Teléfono: " + (if FilledNumber(c.phone) then "+ " + IntToString(c.phone.value) else "No disponible")
    ensures f.ci == "CI: " + (if FilledText(c.identity_card) then c.identity_card.value else "No disponible")
    ensures f.municipality == "Municipio: " + c.destination
    ensures f.sender == "Enviado por: " + c.name
  {
    LabelFields(
      "Destinatario: " + TextOr(c.family_name, c.name),
      "Teléfono: " + (if FilledNumber(c.phone) then "+ " + IntToString(c.phone.value) else "No disponible"),
      "CI: " + TextOr(c.identity_card, "No disponible"),
      "Municipio: " + c.destination,
      "Enviado por: " + c.name)
  }

  /** Without a family member the label is addressed to the sender; a label
      and a manifest row show the same phone text for a customer with a phone. */
  lemma LabelAgreesWithRow(c: Cliente)
    ensures !FilledText(c.family_name) ==>
      LabelFieldsOf(c).recipient[|"Destinatario: "|..] == LabelFieldsOf(c).sender[|"Enviado por: "|..]
    ensures FilledText(c.family_name) ==> LabelFieldsOf(c).recipient == "Destinatario: " + c.family_name.value
    ensures FilledNumber(c.phone) ==> LabelFieldsOf(c).phone == "Teléfono: " + ListadoCells(c)[4]
    ensures !FilledNumber(c.phone) ==> LabelFieldsOf(c).phone == "Teléfono: No disponible"
  {
    var f := LabelFieldsOf(c);
    if !FilledText(c.family_name) {
      assert f.recipient == "Destinatario: " + c.name;
      assert f.recipient[|"Destinatario: "|..] == c.name;
      assert f.sender[|"Enviado por: "|..] == c.name;
    }
  }

  /** The label grid cursor: where the next label goes and how many labels
      have been drawn. */
  datatype Cursor = Cursor(x: real, y: real, count: nat)

  const Corner := Cursor(LabelMargin, LabelMargin, 0)

  /** Where the next label is drawn: back at the corner of a new page when
      it would cross `pageHeight - 5`. */
  function Placed(at: Cursor, pageHeight: real): Cursor {
    if at.y + LabelHeight > pageHeight - LabelMargin then at.(x := LabelMargin, y := LabelMargin) else at
  }

  /** After a label: one column right, or back left and one label down after
      every second label. */
  function Advance(at: Cursor, labelWidth: real): Cursor {
    var next := at.count + 1;
    if next % 2 == 0 then Cursor(LabelMargin, at.y + LabelHeight, next)
    else Cursor(at.x + labelWidth, at.y, next)
  }

  /** The events of one customer's label: the page break it needs, then the label. */
  function LabelBlock(c: Cliente, at: Cursor, pageHeight: real, labelWidth: real): seq<PdfEvent> {
    var p := Placed(at, pageHeight);
    (if at.y + LabelHeight > pageHeight - LabelMargin then [AddPage] else [])
    + [Label(p.x, p.y, labelWidth, LabelHeight, LabelFieldsOf(c))]
  }

  /** The labels from the current customer on. */
  function LabelsFrom(cs: seq<Cliente>, at: Cursor, pageHeight: real, labelWidth: real): seq<PdfEvent>
    decreases |cs|
  {
    if cs == [] then []
    else LabelBlock(cs[0], at, pageHeight, labelWidth)
         + LabelsFrom(cs[1..], Advance(Placed(at, pageHeight), labelWidth), pageHeight, labelWidth)
  }

  /** Two labels side by side between the margins. */
  function LabelWidth(pageWidth: real): real {
    (pageWidth - LabelMargin * 2.0) / 2.0
  }

  function EtiquetasDoc(cs: seq<Cliente>, pageWidth: real, pageHeight: real): seq<PdfEvent> {
    LabelsFrom(cs, Corner, pageHeight, LabelWidth(pageWidth))
  }

  /** `LabelsFrom` with the labels drawn so far in front, one block at a time. */
  function LabelsAfter(doc: seq<PdfEvent>, cs: seq<Cliente>, at: Cursor, pageHeight: real, labelWidth: real): seq<PdfEvent>
    decreases |cs|
  {
    if cs == [] then doc
    else LabelsAfter(doc + LabelBlock(cs[0], at, pageHeight, labelWidth), cs[1..],
                     Advance(Placed(at, pageHeight), labelWidth), pageHeight, labelWidth)
  }

  lemma {:induction false} LabelsAfterIsAppend(doc: seq<PdfEvent>, cs: seq<Cliente>, at: Cursor, pageHeight: real, labelWidth: real)
    ensures LabelsAfter(doc, cs, at, pageHeight, labelWidth) == doc + LabelsFrom(cs, at, pageHeight, labelWidth)
    decreases |cs|
  {
    if cs == [] {
      assert doc + [] == doc;
    } else {
      var block := LabelBlock(cs[0], at, pageHeight, labelWidth);
      var next := Advance(Placed(at, pageHeight), labelWidth);
      var rest := LabelsFrom(cs[1..], next, pageHeight, labelWidth);
      LabelsAfterIsAppend(doc + block, cs[1..], next, pageHeight, labelWidth);
      assert LabelsAfter(doc, cs, at, pageHeight, labelWidth) == (doc + block) + rest;
      assert LabelsFrom(cs, at, pageHeight, labelWidth) == block + rest;
      SeqAssoc(doc, block, rest);
    }
  }

  lemma LabelsAfterStep(doc: seq<PdfEvent>, cs: seq<Cliente>, i: nat, at: Cursor, pageHeight: real, labelWidth: real)
    requires i < |cs|
    ensures LabelsAfter(doc, cs[i..], at, pageHeight, labelWidth)
         == LabelsAfter(doc + LabelBlock(cs[i], at, pageHeight, labelWidth), cs[i + 1..],
                        Advance(Placed(at, pageHeight), labelWidth), pageHeight, labelWidth)
  {
    assert cs[i..][0] == cs[i] && cs[i..][1..] == cs[i + 1..];
  }

  /** Drawing a label, after the page break it needs, appends its block. */
  lemma AppendLabelBlock(before: seq<PdfEvent>, c: Cliente, at: Cursor, pageHeight: real, labelWidth: real)
    ensures var p := Placed(at, pageHeight);
      var drawn := Label(p.x, p.y, labelWidth, LabelHeight, LabelFieldsOf(c));
      (at.y + LabelHeight > pageHeight - LabelMargin ==>
        (before + [AddPage]) + [drawn] == before + LabelBlock(c, at, pageHeight, labelWidth))
      && (at.y + LabelHeight <= pageHeight - LabelMargin ==>
        before + [drawn] == before + LabelBlock(c, at, pageHeight, labelWidth))
  {
    var p := Placed(at, pageHeight);
    SeqAssoc(before, [AddPage], [Label(p.x, p.y, labelWidth, LabelHeight, LabelFieldsOf(c))]);
  }

  /** The label loop: one block per customer in selection order, the grid
      cursor starting at the page corner. */
  method LayOutLabels(selected: seq<Cliente>, pageHeight: real, labelWidth: real) returns (doc: seq<PdfEvent>)
    ensures doc == LabelsFrom(selected, Corner, pageHeight, labelWidth)
  {
    var margin := LabelMargin;
    var labelHeight := LabelHeight;
    var currentX := margin;
    var currentY := margin;
    var labelCount: nat := 0;
    doc := [];
    var i := 0;
    while i < |selected|
      invariant 0 <= i <= |selected|
      invariant LabelsAfter(doc, selected[i..], Cursor(currentX, currentY, labelCount), pageHeight, labelWidth)
             == LabelsAfter([], selected, Corner, pageHeight, labelWidth)
    {
      ghost var at := Cursor(currentX, currentY, labelCount);
      ghost var next := Advance(Placed(at, pageHeight), labelWidth);
      LabelsAfterStep(doc, selected, i, at, pageHeight, labelWidth);
      AppendLabelBlock(doc, selected[i], at, pageHeight, labelWidth);
      if currentY + labelHeight > pageHeight - margin {
        doc := doc + [AddPage];
        currentX := margin;
        currentY := margin;
      }
      doc := doc + [Label(currentX, currentY, labelWidth, labelHeight, LabelFieldsOf(selected[i]))];
      labelCount := labelCount + 1;
      if labelCount % 2 == 0 {
        currentX := margin;
        currentY := currentY + labelHeight;
      } else {
        currentX := currentX + labelWidth;
      }
      assert Cursor(currentX, currentY, labelCount) == next;
      i := i + 1;
    }
    LabelsAfterIsAppend([], selected, Corner, pageHeight, labelWidth);
  }

  /** `generateEtiquetasPDF`: nothing but an alert for an empty selection;
      otherwise one label per customer on the two-column grid, handed back
      or saved. */
  method GenerateEtiquetas(selected: seq<Cliente>, viaje: Option<Viaje>, returnDoc: bool,
                           pageWidth: real, pageHeight: real, today: string)
    returns (result: ExportResult)
    ensures selected == [] ==> result == Alerted(NoSelectionMessage)
    ensures selected != [] && returnDoc ==> result == Returned(EtiquetasDoc(selected, pageWidth, pageHeight))
    ensures selected != [] && !returnDoc ==>
      result == Saved(EtiquetasDoc(selected, pageWidth, pageHeight), FileName("etiquetas", viaje, today))
  {
    if |selected| == 0 {
      return Alerted(NoSelectionMessage);
    }
    var labelWidth := (pageWidth - LabelMargin * 2.0) / 2.0;
    var doc := LayOutLabels(selected, pageHeight, labelWidth);
    if returnDoc {
      return Returned(doc);
    }
    return Saved(doc, FileName("etiquetas", viaje, today));
  }

  /** The x of the column a label goes in once `count` labels are drawn. */
  function ColumnX(count: nat, labelWidth: real): real {
    if count % 2 == 0 then LabelMargin else LabelMargin + labelWidth
  }

  /** The grid invariant: the cursor is in the column its count says, below
      the top margin, and a cursor in the right column still has room on
      its page (the left label of its row fitted). */
  predicate OnGrid(at: Cursor, pageHeight: real, labelWidth: real) {
    at.x == ColumnX(at.count, labelWidth) && at.y >= LabelMargin
    && (at.count % 2 == 1 ==> at.y + LabelHeight <= pageHeight - LabelMargin)
  }

  /** One label keeps the grid invariant, and on a page at least 100 high the
      label fits between the margins in its column. */
  lemma LabelStep(at: Cursor, pageHeight: real, labelWidth: real)
    requires pageHeight >= 100.0 && OnGrid(at, pageHeight, labelWidth)
    ensures var p := Placed(at, pageHeight);
      p.count == at.count && p.x == ColumnX(at.count, labelWidth)
      && LabelMargin <= p.y && p.y + LabelHeight <= pageHeight - LabelMargin
    ensures OnGrid(Advance(Placed(at, pageHeight), labelWidth), pageHeight, labelWidth)
  {
  }

  function PositionHead(e: PdfEvent): seq<(real, real)> {
    if e.Label? then [(e.x, e.y)] else []
  }

  function LabelPositions(events: seq<PdfEvent>): seq<(real, real)> {
    if events == [] then [] else PositionHead(events[0]) + LabelPositions(events[1..])
  }

  lemma {:induction false} LabelPositionsAppend(a: seq<PdfEvent>, b: seq<PdfEvent>)
    ensures LabelPositions(a + b) == LabelPositions(a) + LabelPositions(b)
  {
    if a == [] {
      assert a + b == b;
    } else {
      var ab := a + b;
      assert ab[0] == a[0] && ab[1..] == a[1..] + b;
      assert LabelPositions(ab) == PositionHead(a[0]) + LabelPositions(a[1..] + b);
      LabelPositionsAppend(a[1..], b);
      SeqAssoc(PositionHead(a[0]), LabelPositions(a[1..]), LabelPositions(b));
    }
  }

  lemma LabelBlockPosition(c: Cliente, at: Cursor, pageHeight: real, labelWidth: real)
    ensures var p := Placed(at, pageHeight);
      LabelPositions(LabelBlock(c, at, pageHeight, labelWidth)) == [(p.x, p.y)]
  {
    var p := Placed(at, pageHeight);
    var drawn := Label(p.x, p.y, labelWidth, LabelHeight, LabelFieldsOf(c));
    var pre: seq<PdfEvent> := if at.y + LabelHeight > pageHeight - LabelMargin then [AddPage] else [];
    LabelPositionsAppend(pre, [drawn]);
    assert LabelPositions(pre) == [] by {
      if pre != [] { assert LabelPositions(pre) == [] + LabelPositions([]); }
    }
    assert LabelPositions([drawn]) == [(p.x, p.y)] + LabelPositions([]);
  }

  /** Label positions on the grid from label number `count` on: each label
      lies between the top and bottom margins, the k-th in column
      `(count + k) % 2`. */
  predicate OnPageInColumns(ps: seq<(real, real)>, count: nat, pageHeight: real, labelWidth: real) {
    forall k :: 0 <= k < |ps| ==>
      LabelMargin <= ps[k].1 && ps[k].1 + LabelHeight <= pageHeight - LabelMargin
      && ps[k].0 == ColumnX(count + k, labelWidth)
  }

  lemma OnPageInColumnsCons(p: Cursor, qs: seq<(real, real)>, pageHeight: real, labelWidth: real)
    requires p.x == ColumnX(p.count, labelWidth) && LabelMargin <= p.y && p.y + LabelHeight <= pageHeight - LabelMargin
    requires OnPageInColumns(qs, p.count + 1, pageHeight, labelWidth)
    ensures OnPageInColumns([(p.x, p.y)] + qs, p.count, pageHeight, labelWidth)
  {
    var ps := [(p.x, p.y)] + qs;
    forall k | 0 < k < |ps|
      ensures LabelMargin <= ps[k].1 && ps[k].1 + LabelHeight <= pageHeight - LabelMargin
      ensures ps[k].0 == ColumnX(p.count + k, labelWidth)
    {
      assert ps[k] == qs[k - 1];
      assert p.count + 1 + (k - 1) == p.count + k;
    }
  }

  /** On a page at least 100 high no label crosses the bottom margin, and the
      k-th label lies in column `(count + k) % 2`: the labels fill the grid
      row by row and a page break never splits a row. */
  lemma {:induction false} LabelsFitPage(cs: seq<Cliente>, at: Cursor, pageHeight: real, labelWidth: real)
    requires pageHeight >= 100.0 && OnGrid(at, pageHeight, labelWidth)
    ensures var ps := LabelPositions(LabelsFrom(cs, at, pageHeight, labelWidth));
      |ps| == |cs| && OnPageInColumns(ps, at.count, pageHeight, labelWidth)
    decreases |cs|
  {
    if cs != [] {
      var p := Placed(at, pageHeight);
      var next := Advance(p, labelWidth);
      var block := LabelBlock(cs[0], at, pageHeight, labelWidth);
      var rest := LabelsFrom(cs[1..], next, pageHeight, labelWidth);
      LabelStep(at, pageHeight, labelWidth);
      LabelsFitPage(cs[1..], next, pageHeight, labelWidth);
      LabelPositionsAppend(block, rest);
      LabelBlockPosition(cs[0], at, pageHeight, labelWidth);
      OnPageInColumnsCons(p, LabelPositions(rest), pageHeight, labelWidth);
    }
  }

  /** The labels of a whole document: on an A4-sized page or any page at
      least 100 high, labels alternate left and right from the first. */
  lemma EtiquetasLayout(cs: seq<Cliente>, pageWidth: real, pageHeight: real)
    requires pageHeight >= 100.0
    ensures var ps := LabelPositions(EtiquetasDoc(cs, pageWidth, pageHeight));
      |ps| == |cs| && OnPageInColumns(ps, 0, pageHeight, LabelWidth(pageWidth))
  {
    LabelsFitPage(cs, Corner, pageHeight, LabelWidth(pageWidth));
  }

  function FieldsHead(e: PdfEvent): seq<LabelFields> {
    if e.Label? then [e.fields] else []
  }

  function LabelTexts(events: seq<PdfEvent>): seq<LabelFields> {
    if events == [] then [] else FieldsHead(events[0]) + LabelTexts(events[1..])
  }

  lemma {:induction false} LabelTextsAppend(a: seq<PdfEvent>, b: seq<PdfEvent>)
    ensures LabelTexts(a + b) == LabelTexts(a) + LabelTexts(b)
  {
    if a == [] {
      assert a + b == b;
    } else {
      var ab := a + b;
      assert ab[0] == a[0] && ab[1..] == a[1..] + b;
      assert LabelTexts(ab) == FieldsHead(a[0]) + LabelTexts(a[1..] + b);
      LabelTextsAppend(a[1..], b);
      SeqAssoc(FieldsHead(a[0]), LabelTexts(a[1..]), LabelTexts(b));
    }
  }

  lemma LabelBlockTexts(c: Cliente, at: Cursor, pageHeight: real, labelWidth: real)
    ensures LabelTexts(LabelBlock(c, at, pageHeight, labelWidth)) == [LabelFieldsOf(c)]
  {
    var p := Placed(at, pageHeight);
    var drawn := Label(p.x, p.y, labelWidth, LabelHeight, LabelFieldsOf(c));
    var pre: seq<PdfEvent> := if at.y + LabelHeight > pageHeight - LabelMargin then [AddPage] else [];
    LabelTextsAppend(pre, [drawn]);
    assert LabelTexts(pre) == [] by {
      if pre != [] { assert LabelTexts(pre) == [] + LabelTexts([]); }
    }
    assert LabelTexts([drawn]) == [LabelFieldsOf(c)] + LabelTexts([]);
  }

  /** The label texts of each selected customer, in selection order. */
  function LabelRows(cs: seq<Cliente>): (ts: seq<LabelFields>)
    ensures |ts| == |cs| && forall k :: 0 <= k < |cs| ==> ts[k] == LabelFieldsOf(cs[k])
  {
    if cs == [] then [] else [LabelFieldsOf(cs[0])] + LabelRows(cs[1..])
  }

  /** The labels print the selected customers, each once, in selection order. */
  lemma {:induction false} LabelsFollowSelection(cs: seq<Cliente>, at: Cursor, pageHeight: real, labelWidth: real)
    ensures LabelTexts(LabelsFrom(cs, at, pageHeight, labelWidth)) == LabelRows(cs)
    decreases |cs|
  {
    if cs != [] {
      var next := Advance(Placed(at, pageHeight), labelWidth);
      var block := LabelBlock(cs[0], at, pageHeight, labelWidth);
      var rest := LabelsFrom(cs[1..], next, pageHeight, labelWidth);
      LabelBlockTexts(cs[0], at, pageHeight, labelWidth);
      LabelTextsAppend(block, rest);
      LabelsFollowSelection(cs[1..], next, pageHeight, labelWidth);
    }
  }

  /** `printListadoPDF` and `printEtiquetasPDF` go no further when the
      generator produced no document. */
  method PrintListado(selected: seq<Cliente>, viaje: Option<Viaje>, pageWidth: real, pageHeight: real, today: string)
    returns (printed: Option<seq<PdfEvent>>)
    ensures printed.None? <==> selected == []
    ensures printed.Some? ==> printed.value == ListadoDoc(selected, pageWidth, pageHeight)
  {
    var result := GenerateListado(selected, viaje, true, pageWidth, pageHeight, today);
    if !result.Returned? {
      return None;
    }
    return Some(result.doc);
  }

  method PrintEtiquetas(selected: seq<Cliente>, viaje: Option<Viaje>, pageWidth: real, pageHeight: real, today: string)
    returns (printed: Option<seq<PdfEvent>>)
    ensures printed.None? <==> selected == []
    ensures printed.Some? ==> printed.value == EtiquetasDoc(selected, pageWidth, pageHeight)
  {
    var result := GenerateEtiquetas(selected, viaje, true, pageWidth, pageHeight, today);
    if !result.Returned? {
      return None;
    }
    return Some(result.doc);
  }
}
