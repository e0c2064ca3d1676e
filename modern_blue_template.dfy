/** The "Modern Blue" theme: a blue header band, grey party boxes, a blue table
    header with alternating row fills, a green total box and a boxed note.

    Each section is specified by a function from the log before the section to
    the log after it, one appended command per drawing call. */
module ModernBlue {
  import opened Common
  import opened Strings
  import opened Surface
  import opened BaseTemplate

  // ---------------------------------------------------------------------------
  // Header

  function Header(log: seq<Cmd>, d: InvoiceData): seq<Cmd> {
    log
    + [FillColor(Rgb(41, 128, 185))] + [Rect(0, 0, 210, 35, Fill)]
    + [TextColor(Rgb(255, 255, 255))] + [FontSize(28)] + [FontFace("helvetica", Bold)]
    + [Say(d.invoiceName, 20, 22)]
    + [FillColor(Rgb(46, 204, 113))] + [Rect(150, 8, 40, 8, Fill)]
    + [TextColor(Rgb(255, 255, 255))] + [FontSize(10)] + [FontFace("helvetica", Bold)]
    + [Text(["INVOICE"], 170, 13, AlignCenter)]
    + [TextColor(Rgb(52, 73, 94))]
  }

  method RenderHeader(pdf: Surface, d: InvoiceData)
    modifies pdf
    ensures pdf.log == Header(old(pdf.log), d) && pdf.font == Font(Bold, 10)
  {
    pdf.SetFillColor(41, 128, 185);
    pdf.DrawRect(0, 0, 210, 35, Fill);
    pdf.SetTextColor(255, 255, 255);
    pdf.SetFontSize(28);
    pdf.SetFont("helvetica", Bold);
    pdf.DrawText([d.invoiceName], 20, 22, AlignLeft);
    pdf.SetFillColor(46, 204, 113);
    pdf.DrawRect(150, 8, 40, 8, Fill);
    pdf.SetTextColor(255, 255, 255);
    pdf.SetFontSize(10);
    pdf.SetFont("helvetica", Bold);
    pdf.DrawText(["INVOICE"], 170, 13, AlignCenter);
    pdf.SetTextColor(52, 73, 94);
  }

  /** The header draws the invoice name in 28 pt bold white on a full-width band
      and the centred "INVOICE" badge inside the green box at x 150..190. */
  lemma HeaderLayout(log: seq<Cmd>, d: InvoiceData)
    ensures var h := Header(log, d);
      && |h| == |log| + 13 && log <= h
      && h[|log| + 1] == Rect(0, 0, 210, 35, Fill)
      && h[|log| + 5] == Say(d.invoiceName, 20, 22)
      && h[|log| + 11] == Text(["INVOICE"], 170, 13, AlignCenter)
  {
  }

  // ---------------------------------------------------------------------------
  // From and client sections: a box at y 45, a heading, then name, email and the
  // address wrapped at width 75, one line every LINE_HEIGHT from y 58.

  const PARTY_BOX_Y := 45
  const PARTY_WRAP := 75
  const PARTY_FONT := Font(Normal, 10)

  function PartyLines(name: string, email: string, address: string, wrap: Wrapper): seq<string> {
    [name, email] + wrap(address, PARTY_WRAP, PARTY_FONT)
  }

  function Party(log: seq<Cmd>, heading: string, boxX: int, textX: int, lines: seq<string>): seq<Cmd> {
    log
    + [FillColor(Rgb(236, 240, 241))] + [Rect(boxX, PARTY_BOX_Y, 85, 35, Fill)]
    + [FontSize(12)] + [FontFace("helvetica", Bold)] + [TextColor(Rgb(41, 128, 185))]
    + [Say(heading, textX, PARTY_BOX_Y + 8)]
    + [FontSize(10)] + [FontFace("helvetica", Normal)] + [TextColor(Rgb(52, 73, 94))]
    + TextColumn(lines, textX, PARTY_BOX_Y + 13, LINE_HEIGHT)
  }

  function FromSection(log: seq<Cmd>, d: InvoiceData, wrap: Wrapper): seq<Cmd> {
    Party(log, "DARI", 15, 20, PartyLines(d.fromName, d.fromEmail, d.fromAddress, wrap))
  }

  function ClientSection(log: seq<Cmd>, d: InvoiceData, wrap: Wrapper): seq<Cmd> {
    Party(log, "KEPADA", 110, 115, PartyLines(d.clientName, d.clientEmail, d.clientAddress, wrap))
  }

  method RenderParty(pdf: Surface, heading: string, boxX: int, textX: int, name: string, email: string, address: string)
    modifies pdf
    ensures pdf.log == Party(old(pdf.log), heading, boxX, textX, PartyLines(name, email, address, pdf.wrap))
    ensures pdf.font == PARTY_FONT
  {
    var boxY := PARTY_BOX_Y;
    pdf.SetFillColor(236, 240, 241);
    pdf.DrawRect(boxX, boxY, 85, 35, Fill);
    pdf.SetFontSize(12);
    pdf.SetFont("helvetica", Bold);
    pdf.SetTextColor(41, 128, 185);
    pdf.DrawText([heading], textX, boxY + 8, AlignLeft);
    pdf.SetFontSize(10);
    pdf.SetFont("helvetica", Normal);
    pdf.SetTextColor(52, 73, 94);
    var maxWidth := PARTY_WRAP;
    var addressLines := pdf.SplitTextToSize(address, maxWidth);
    var lines := [name, email] + addressLines;
    pdf.DrawColumn(lines, textX, boxY + 13, LINE_HEIGHT);
  }

  method RenderFromSection(pdf: Surface, d: InvoiceData)
    modifies pdf
    ensures pdf.log == FromSection(old(pdf.log), d, pdf.wrap) && pdf.font == PARTY_FONT
  {
    RenderParty(pdf, "DARI", 15, 20, d.fromName, d.fromEmail, d.fromAddress);
  }

  method RenderClientSection(pdf: Surface, d: InvoiceData)
    modifies pdf
    ensures pdf.log == ClientSection(old(pdf.log), d, pdf.wrap) && pdf.font == PARTY_FONT
  {
    RenderParty(pdf, "KEPADA", 110, 115, d.clientName, d.clientEmail, d.clientAddress);
  }

  /** A party block lists name, email and the address wrapped at width 75 in 10 pt
      normal, line `i` at y 58 + 4i. */
  lemma PartyLayout(log: seq<Cmd>, heading: string, boxX: int, textX: int,
                    name: string, email: string, address: string, wrap: Wrapper)
    ensures var lines := PartyLines(name, email, address, wrap);
      var cmds := Party(log, heading, boxX, textX, lines);
      && lines[0] == name && lines[1] == email && lines[2..] == wrap(address, 75, Font(Normal, 10))
      && |cmds| == |log| + 9 + |lines| && log <= cmds
      && forall i :: 0 <= i < |lines| ==> cmds[|log| + 9 + i] == Say(lines[i], textX, 58 + 4 * i)
  {
    var lines := PartyLines(name, email, address, wrap);
    var head := log
      + [FillColor(Rgb(236, 240, 241))] + [Rect(boxX, PARTY_BOX_Y, 85, 35, Fill)]
      + [FontSize(12)] + [FontFace("helvetica", Bold)] + [TextColor(Rgb(41, 128, 185))]
      + [Say(heading, textX, PARTY_BOX_Y + 8)]
      + [FontSize(10)] + [FontFace("helvetica", Normal)] + [TextColor(Rgb(52, 73, 94))];
    assert |head| == |log| + 9 && log <= head;
    ColumnAfter(head, lines, textX, PARTY_BOX_Y + 13, LINE_HEIGHT);
  }

  // ---------------------------------------------------------------------------
  // Invoice details

  function InvoiceDetails(log: seq<Cmd>, d: InvoiceData, fmt: Fmt): seq<Cmd> {
    log
    + [FillColor(Rgb(255, 255, 255))] + [DrawColor(Rgb(41, 128, 185))] + [Rect(110, 20, 85, 20, FillStroke)]
    + [FontSize(9)] + [FontFace("helvetica", Normal)] + [TextColor(Rgb(52, 73, 94))]
    + [Say("No. Faktur: #" + IntToString(d.invoiceNumber), 115, 26)]
    + [Say("Tanggal: " + FormatDate(fmt, d), 115, 30)]
    + [Say("Jatuh Tempo: " + IntToString(d.dueDate) + " hari", 115, 34)]
  }

  method RenderInvoiceDetails(pdf: Surface, d: InvoiceData, fmt: Fmt)
    modifies pdf
    ensures pdf.log == InvoiceDetails(old(pdf.log), d, fmt) && pdf.font == Font(Normal, 9)
  {
    pdf.SetFillColor(255, 255, 255);
    pdf.SetDrawColor(41, 128, 185);
    pdf.DrawRect(110, 20, 85, 20, FillStroke);
    pdf.SetFontSize(9);
    pdf.SetFont("helvetica", Normal);
    pdf.SetTextColor(52, 73, 94);
    pdf.DrawText(["No. Faktur: #" + IntToString(d.invoiceNumber)], 115, 26, AlignLeft);
    pdf.DrawText(["Tanggal: " + FormatDate(fmt, d)], 115, 30, AlignLeft);
    pdf.DrawText(["Jatuh Tempo: " + IntToString(d.dueDate) + " hari"], 115, 34, AlignLeft);
  }

  /** The details show the invoice number after "#", the formatted date and the due
      date as a count of days, one line every 4 from y 26. */
  lemma InvoiceDetailsLayout(log: seq<Cmd>, d: InvoiceData, fmt: Fmt)
    ensures var c := InvoiceDetails(log, d, fmt);
      && |c| == |log| + 9 && log <= c
      && c[|log| + 6] == Say("No. Faktur: #" + IntToString(d.invoiceNumber), 115, 26)
      && c[|log| + 7] == Say("Tanggal: " + fmt.date(d.date), 115, 30)
      && c[|log| + 8] == Say("Jatuh Tempo: " + IntToString(d.dueDate) + " hari", 115, 34)
  {
  }

  // ---------------------------------------------------------------------------
  // Item table: rows from y 105, each advancing by its item height plus 4.

  const TABLE_START_Y := 95
  const TABLE := TableGeometry(TABLE_START_Y + 10, 4, 75, Font(Normal, 11), Font(Normal, 10))

  function TableHead(log: seq<Cmd>): seq<Cmd> {
    log
    + [FillColor(Rgb(41, 128, 185))] + [Rect(15, TABLE_START_Y - 5, 180, 12, Fill)]
    + [FontSize(11)] + [FontFace("helvetica", Bold)] + [TextColor(Rgb(255, 255, 255))]
    + [Say("DESKRIPSI", 20, TABLE_START_Y)] + [Say("QTY", 105, TABLE_START_Y)]
    + [Say("BIAYA/HARGA", 130, TABLE_START_Y)] + [Say("TOTAL", 165, TABLE_START_Y)]
    + [TextColor(Rgb(52, 73, 94))] + [FontFace("helvetica", Normal)]
  }

  /** The log after row `i`, showing `item`, is drawn at running offset `y`. */
  function Row(log: seq<Cmd>, d: InvoiceData, fmt: Fmt, wrap: Wrapper, item: Item, i: nat, y: int): seq<Cmd> {
    log
    + [FillColor(Rgb(if i % 2 == 0 then 248 else 255, 249, 250))]
    + [Rect(15, y - 3, 180, RowHeight(TABLE, wrap, item, i) + 6, Fill)]
    + [FontSize(10)]
    + [Text(RowLines(TABLE, wrap, item, i), 20, y + 2, AlignLeft)]
    + [Say(fmt.number(item.quantity), 105, y + 2)]
    + [Say(FormatCurrency(fmt, d, item.rate), 130, y + 2)]
    + [FontFace("helvetica", Bold)]
    + [Say(FormatCurrency(fmt, d, Amount(item)), 165, y + 2)]
    + [FontFace("helvetica", Normal)]
  }

  function RowRender(d: InvoiceData, fmt: Fmt, wrap: Wrapper): RowRenderer {
    (log: seq<Cmd>, item: Item, i: nat, y: int) => Row(log, d, fmt, wrap, item, i, y)
  }

  function Table(log: seq<Cmd>, d: InvoiceData, fmt: Fmt, wrap: Wrapper): seq<Cmd> {
    DrawRows(RowRender(d, fmt, wrap), TABLE, wrap, d.items, TableHead(log), |d.items|)
  }

  /** The header band of the table, up to `currentY = tableStartY + 10`. */
  method RenderTableHead(pdf: Surface)
    modifies pdf
    ensures pdf.log == TableHead(old(pdf.log)) && pdf.font == TABLE.headFont
  {
    var tableStartY := TABLE_START_Y;
    pdf.SetFillColor(41, 128, 185);
    pdf.DrawRect(15, tableStartY - 5, 180, 12, Fill);
    pdf.SetFontSize(11);
    pdf.SetFont("helvetica", Bold);
    pdf.SetTextColor(255, 255, 255);
    pdf.DrawText(["DESKRIPSI"], 20, tableStartY, AlignLeft);
    pdf.DrawText(["QTY"], 105, tableStartY, AlignLeft);
    pdf.DrawText(["BIAYA/HARGA"], 130, tableStartY, AlignLeft);
    pdf.DrawText(["TOTAL"], 165, tableStartY, AlignLeft);
    pdf.SetTextColor(52, 73, 94);
    pdf.SetFont("helvetica", Normal);
  }

  /** One iteration of the row loop: draws row `index` at `currentY` and returns
      its item height. */
  method RenderRow(pdf: Surface, d: InvoiceData, fmt: Fmt, item: Item, index: nat, currentY: int)
      returns (itemHeight: int)
    requires pdf.font == RowFont(TABLE, index)
    modifies pdf
    ensures pdf.log == Row(old(pdf.log), d, fmt, pdf.wrap, item, index, currentY)
    ensures pdf.font == TABLE.rowFont
    ensures itemHeight == RowHeight(TABLE, pdf.wrap, item, index)
  {
    pdf.SetFillColor(if index % 2 == 0 then 248 else 255, 249, 250);
    var maxDescriptionWidth := 75;
    var descriptionLines := pdf.SplitTextToSize(item.description, maxDescriptionWidth);
    itemHeight := CalculateItemHeight(pdf, item.description, maxDescriptionWidth);
    pdf.DrawRect(15, currentY - 3, 180, itemHeight + 6, Fill);
    pdf.SetFontSize(10);
    pdf.DrawText(descriptionLines, 20, currentY + 2, AlignLeft);
    pdf.DrawText([fmt.number(item.quantity)], 105, currentY + 2, AlignLeft);
    pdf.DrawText([FormatCurrency(fmt, d, item.rate)], 130, currentY + 2, AlignLeft);
    pdf.SetFont("helvetica", Bold);
    pdf.DrawText([FormatCurrency(fmt, d, Amount(item))], 165, currentY + 2, AlignLeft);
    pdf.SetFont("helvetica", Normal);
  }

  method RenderTable(pdf: Surface, d: InvoiceData, fmt: Fmt)
    modifies pdf
    ensures pdf.log == Table(old(pdf.log), d, fmt, pdf.wrap)
    ensures pdf.font == RowFont(TABLE, |d.items|)
  {
    RenderTableHead(pdf);
    var currentY := RenderRows(pdf, d, fmt);
  }

  /** The row loop of the table: row `index` at the running offset `currentY`,
      which advances by the row's item height plus 4; returns the final offset. */
  method RenderRows(pdf: Surface, d: InvoiceData, fmt: Fmt) returns (currentY: int)
    requires pdf.font == TABLE.headFont
    modifies pdf
    ensures pdf.log == DrawRows(RowRender(d, fmt, pdf.wrap), TABLE, pdf.wrap, d.items, old(pdf.log), |d.items|)
    ensures pdf.font == RowFont(TABLE, |d.items|)
    ensures currentY == TableEnd(TABLE, pdf.wrap, d.items)
  {
    currentY := TABLE_START_Y + 10;
    for index := 0 to |d.items|
      invariant pdf.log == DrawRows(RowRender(d, fmt, pdf.wrap), TABLE, pdf.wrap, d.items, old(pdf.log), index)
      invariant currentY == RowTop(TABLE, pdf.wrap, d.items, index)
      invariant pdf.font == RowFont(TABLE, index)
    {
      var itemHeight := RenderRow(pdf, d, fmt, d.items[index], index, currentY);
      currentY := currentY + itemHeight + 4;
    }
  }

  /** Row `i` appends nine commands: a fill with red channel 248 on even rows and
      255 on odd rows, a background spanning x 15..195 and y (y - 3)..(y + h + 3)
      around its running offset y, the wrapped description at y + 2, and the
      amount quantity times rate. */
  lemma RowShape(log: seq<Cmd>, d: InvoiceData, fmt: Fmt, wrap: Wrapper, item: Item, i: nat, y: int)
    ensures var r := Row(log, d, fmt, wrap, item, i, y);
      var h := RowHeight(TABLE, wrap, item, i);
      && |r| == |log| + 9 && log <= r
      && r[|log|] == FillColor(Rgb(if i % 2 == 0 then 248 else 255, 249, 250))
      && r[|log| + 1] == Rect(15, y - 3, 195 - 15, (y + h + 3) - (y - 3), Fill)
      && r[|log| + 3] == Text(RowLines(TABLE, wrap, item, i), 20, y + 2, AlignLeft)
      && r[|log| + 7] == Say(fmt.currency(Amount(item), d.currency), 165, y + 2)
  {
  }

  /** Every row only appends its nine commands. */
  lemma RowRenderAppends(d: InvoiceData, fmt: Fmt, wrap: Wrapper)
    ensures forall l, item, j, y :: |RowRender(d, fmt, wrap)(l, item, j, y)| == |l| + 9
    ensures forall l, item, j, y :: l <= RowRender(d, fmt, wrap)(l, item, j, y)
  {
    forall l, item, j, y
      ensures |RowRender(d, fmt, wrap)(l, item, j, y)| == |l| + 9 && l <= RowRender(d, fmt, wrap)(l, item, j, y)
    {
      RowShape(l, d, fmt, wrap, item, j, y);
    }
  }

  /** The first row is at y 105 and every later row at the previous one plus its item
      height plus 4, so rows strictly descend the page in item order. */
  lemma RowOffsets(d: InvoiceData, wrap: Wrapper, i: nat, j: nat)
    requires i < j <= |d.items|
    ensures RowTop(TABLE, wrap, d.items, 0) == 105
    ensures RowTop(TABLE, wrap, d.items, i + 1)
         == RowTop(TABLE, wrap, d.items, i) + RowHeight(TABLE, wrap, d.items[i], i) + 4
    ensures RowTop(TABLE, wrap, d.items, i) + 8 <= RowTop(TABLE, wrap, d.items, j)
  {
    RowTopStrictlyIncreasing(TABLE, wrap, d.items, i, j);
  }

  // ---------------------------------------------------------------------------
  // Total: placed from the item count with a fixed 20 per item, not from the rows.

  function TotalY(d: InvoiceData): int {
    TABLE_START_Y + 10 + |d.items| * 20 + SECTION_SPACING
  }

  function Total(log: seq<Cmd>, d: InvoiceData, fmt: Fmt): seq<Cmd> {
    log
    + [FillColor(Rgb(46, 204, 113))] + [Rect(120, TotalY(d), 75, 15, Fill)]
    + [FontFace("helvetica", Bold)] + [FontSize(12)] + [TextColor(Rgb(255, 255, 255))]
    + [Say("TOTAL (" + d.currency + "): " + FormatCurrency(fmt, d, d.total), 125, TotalY(d) + 9)]
    + [TextColor(Rgb(52, 73, 94))]
  }

  method RenderTotal(pdf: Surface, d: InvoiceData, fmt: Fmt)
    modifies pdf
    ensures pdf.log == Total(old(pdf.log), d, fmt) && pdf.font == Font(Bold, 12)
  {
    var totalSectionY := 95 + 10 + |d.items| * 20 + SECTION_SPACING;
    pdf.SetFillColor(46, 204, 113);
    pdf.DrawRect(120, totalSectionY, 75, 15, Fill);
    pdf.SetFont("helvetica", Bold);
    pdf.SetFontSize(12);
    pdf.SetTextColor(255, 255, 255);
    var totalText := "TOTAL (" + d.currency + "): " + FormatCurrency(fmt, d, d.total);
    pdf.DrawText([totalText], 125, totalSectionY + 9, AlignLeft);
    pdf.SetTextColor(52, 73, 94);
  }

  /** The total box sits at 115 + 20n and shows the stored total: two invoices with
      the same item count, currency and total get the same total section, whatever
      their items are. */
  lemma TotalFromCountOnly(log: seq<Cmd>, d1: InvoiceData, d2: InvoiceData, fmt: Fmt)
    requires |d1.items| == |d2.items| && d1.currency == d2.currency && d1.total == d2.total
    ensures TotalY(d1) == 115 + 20 * |d1.items|
    ensures Total(log, d1, fmt) == Total(log, d2, fmt)
    ensures Total(log, d1, fmt)[|log| + 5]
         == Say("TOTAL (" + d1.currency + "): " + fmt.currency(d1.total, d1.currency), 125, TotalY(d1) + 9)
  {
  }

  /** If no description wraps to more than four lines the table ends above the total box. */
  lemma TableClearsTotal(d: InvoiceData, wrap: Wrapper)
    requires forall i :: 0 <= i < |d.items| ==> |RowLines(TABLE, wrap, d.items[i], i)| <= 4
    ensures TableEnd(TABLE, wrap, d.items) <= TotalY(d)
  {
    TableEndBound(TABLE, wrap, d.items, |d.items|, 4);
  }

  // ---------------------------------------------------------------------------
  // Note: skipped when missing or empty; otherwise a box 25 below the total's y.

  function NoteY(d: InvoiceData): int {
    TABLE_START_Y + 10 + |d.items| * 20 + SECTION_SPACING + 25
  }

  const NOTE_FONT := Font(Bold, 10)

  function Note(log: seq<Cmd>, d: InvoiceData, wrap: Wrapper): seq<Cmd> {
    if !HasNote(d) then log
    else
      log
      + [DrawColor(Rgb(41, 128, 185))] + [FillColor(Rgb(248, 249, 250))] + [Rect(15, NoteY(d), 180, 25, FillStroke)]
      + [FontFace("helvetica", Bold)] + [FontSize(10)] + [TextColor(Rgb(41, 128, 185))]
      + [Say("CATATAN", 20, NoteY(d) + 8)]
      + [FontFace("helvetica", Normal)] + [TextColor(Rgb(52, 73, 94))]
      + TextColumn(wrap(d.note.value, 165, NOTE_FONT), 20, NoteY(d) + 13, LINE_HEIGHT)
  }

  method RenderNote(pdf: Surface, d: InvoiceData)
    modifies pdf
    ensures pdf.log == Note(old(pdf.log), d, pdf.wrap)
    ensures pdf.font == if HasNote(d) then Font(Normal, 10) else old(pdf.font)
  {
    if !HasNote(d) {
      return;
    }
    var noteY := 95 + 10 + |d.items| * 20 + SECTION_SPACING + 25;
    pdf.SetDrawColor(41, 128, 185);
    pdf.SetFillColor(248, 249, 250);
    pdf.DrawRect(15, noteY, 180, 25, FillStroke);
    pdf.SetFont("helvetica", Bold);
    pdf.SetFontSize(10);
    pdf.SetTextColor(41, 128, 185);
    pdf.DrawText(["CATATAN"], 20, noteY + 8, AlignLeft);
    var maxNoteWidth := 165;
    var noteLines := pdf.SplitTextToSize(d.note.value, maxNoteWidth);
    pdf.SetFont("helvetica", Normal);
    pdf.SetTextColor(52, 73, 94);
    pdf.DrawColumn(noteLines, 20, noteY + 13, LINE_HEIGHT);
  }

  /** No note, no commands; otherwise the box is 25 below the total's y and note line
      `i`, wrapped at width 165 in 10 pt bold, is at noteY + 13 + 4i. */
  lemma NoteLayout(log: seq<Cmd>, d: InvoiceData, wrap: Wrapper)
    ensures !HasNote(d) ==> Note(log, d, wrap) == log
    ensures HasNote(d) ==>
      var lines := wrap(d.note.value, 165, Font(Bold, 10));
      var c := Note(log, d, wrap);
      && NoteY(d) == TotalY(d) + 25
      && |c| == |log| + 9 + |lines| && log <= c
      && c[|log| + 2] == Rect(15, NoteY(d), 180, 25, FillStroke)
      && forall i :: 0 <= i < |lines| ==> c[|log| + 9 + i] == Say(lines[i], 20, NoteY(d) + 13 + 4 * i)
  {
  }

  // ---------------------------------------------------------------------------
  // Footer: a rule at the fixed y 280.

  const FOOTER_Y := 280

  function Footer(log: seq<Cmd>, d: InvoiceData, year: int): seq<Cmd> {
    log
    + [DrawColor(Rgb(41, 128, 185))] + [Line(15, FOOTER_Y, 195, FOOTER_Y)]
    + [FontSize(8)] + [FontFace("helvetica", Normal)] + [TextColor(Rgb(128, 128, 128))]
    + [Say("Terima kasih atas kepercayaan Anda!", 20, FOOTER_Y + 8)]
    + [Say("Dibuat dengan InulTax - " + IntToString(year), 20, FOOTER_Y + 12)]
    + [Say("Email: " + d.fromEmail, 120, FOOTER_Y + 8)]
    + [Say("Dokumen ini dibuat secara otomatis", 120, FOOTER_Y + 12)]
  }

  method RenderFooter(pdf: Surface, d: InvoiceData, year: int)
    modifies pdf
    ensures pdf.log == Footer(old(pdf.log), d, year) && pdf.font == Font(Normal, 8)
  {
    var footerY := FOOTER_Y;
    pdf.SetDrawColor(41, 128, 185);
    pdf.DrawLine(15, footerY, 195, footerY);
    pdf.SetFontSize(8);
    pdf.SetFont("helvetica", Normal);
    pdf.SetTextColor(128, 128, 128);
    pdf.DrawText(["Terima kasih atas kepercayaan Anda!"], 20, footerY + 8, AlignLeft);
    pdf.DrawText(["Dibuat dengan InulTax - " + IntToString(year)], 20, footerY + 12, AlignLeft);
    pdf.DrawText(["Email: " + d.fromEmail], 120, footerY + 8, AlignLeft);
    pdf.DrawText(["Dokumen ini dibuat secara otomatis"], 120, footerY + 12, AlignLeft);
  }

  /** The footer rule is at y 280 and the sender's email at (120, 288), whatever
      the invoice holds and however long the page above it is. */
  lemma FooterFixed(log: seq<Cmd>, d: InvoiceData, year: int)
    ensures var f := Footer(log, d, year);
      && |f| == |log| + 9 && log <= f
      && f[|log| + 1] == Line(15, 280, 195, 280)
      && f[|log| + 6] == Say("Dibuat dengan InulTax - " + IntToString(year), 20, 292)
      && f[|log| + 7] == Say("Email: " + d.fromEmail, 120, 288)
  {
  }
}
