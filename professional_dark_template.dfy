/** The "Professional Dark" theme: a dark header band with a red accent strip,
    outlined light boxes for the parties and the note, a dark details bar and a red
    total box.

    Each section is specified by a function from the log before the section to
    the log after it, one appended command per drawing call. */
module ProfessionalDark {
  import opened Common
  import opened Strings
  import opened Surface
  import opened BaseTemplate

  // ---------------------------------------------------------------------------
  // Header

  function Header(log: seq<Cmd>, d: InvoiceData): seq<Cmd> {
    log
    + [FillColor(Rgb(33, 37, 41))] + [Rect(0, 0, 210, 40, Fill)]
    + [TextColor(Rgb(255, 255, 255))] + [FontSize(26)] + [FontFace("helvetica", Bold)]
    + [Say(d.invoiceName, 20, 25)]
    + [FillColor(Rgb(220, 53, 69))] + [Rect(0, 35, 210, 5, Fill)]
    + [FillColor(Rgb(52, 58, 64))] + [Rect(145, 10, 50, 12, Fill)]
    + [TextColor(Rgb(255, 255, 255))] + [FontSize(11)] + [FontFace("helvetica", Bold)]
    + [Text(["INVOICE"], 170, 18, AlignCenter)]
  }

  method RenderHeader(pdf: Surface, d: InvoiceData)
    modifies pdf
    ensures pdf.log == Header(old(pdf.log), d) && pdf.font == Font(Bold, 11)
  {
    pdf.SetFillColor(33, 37, 41);
    pdf.DrawRect(0, 0, 210, 40, Fill);
    pdf.SetTextColor(255, 255, 255);
    pdf.SetFontSize(26);
    pdf.SetFont("helvetica", Bold);
    pdf.DrawText([d.invoiceName], 20, 25, AlignLeft);
    pdf.SetFillColor(220, 53, 69);
    pdf.DrawRect(0, 35, 210, 5, Fill);
    pdf.SetFillColor(52, 58, 64);
    pdf.DrawRect(145, 10, 50, 12, Fill);
    pdf.SetTextColor(255, 255, 255);
    pdf.SetFontSize(11);
    pdf.SetFont("helvetica", Bold);
    pdf.DrawText(["INVOICE"], 170, 18, AlignCenter);
  }

  /** The red accent strip closes the dark band at its bottom edge, and the
      centred label sits inside the badge. */
  lemma HeaderLayout(log: seq<Cmd>, d: InvoiceData)
    ensures var h := Header(log, d);
      && |h| == |log| + 14 && log <= h
      && h[|log| + 1] == Rect(0, 0, 210, 40, Fill)
      && h[|log| + 7].y + h[|log| + 7].h == h[|log| + 1].y + h[|log| + 1].h
      && h[|log| + 9].x <= h[|log| + 13].tx <= h[|log| + 9].x + h[|log| + 9].w
      && h[|log| + 9].y <= h[|log| + 13].ty <= h[|log| + 9].y + h[|log| + 9].h
      && h[|log| + 13] == Text(["INVOICE"], 170, 18, AlignCenter)
  {
  }

  // ---------------------------------------------------------------------------
  // From and client sections: an outlined box at y 55, a red heading, then name,
  // email and the address wrapped at width 75, one line every LINE_HEIGHT from y 68.

  const PARTY_BOX_Y := 55
  const PARTY_WRAP := 75
  const PARTY_FONT := Font(Normal, 9)

  function PartyLines(name: string, email: string, address: string, wrap: Wrapper): seq<string> {
    [name, email] + wrap(address, PARTY_WRAP, PARTY_FONT)
  }

  function Party(log: seq<Cmd>, heading: string, boxX: int, textX: int, lines: seq<string>): seq<Cmd> {
    log
    + [FillColor(Rgb(248, 249, 250))] + [DrawColor(Rgb(33, 37, 41))] + [LineWidth(0.5)]
    + [Rect(boxX, PARTY_BOX_Y, 85, 35, FillStroke)]
    + [FontSize(11)] + [FontFace("helvetica", Bold)] + [TextColor(Rgb(220, 53, 69))]
    + [Say(heading, textX, PARTY_BOX_Y + 8)]
    + [FontSize(9)] + [FontFace("helvetica", Normal)] + [TextColor(Rgb(33, 37, 41))]
    + TextColumn(lines, textX, PARTY_BOX_Y + 13, LINE_HEIGHT)
  }

  function FromSection(log: seq<Cmd>, d: InvoiceData, wrap: Wrapper): seq<Cmd> {
    Party(log, "BILL FROM", 15, 20, PartyLines(d.fromName, d.fromEmail, d.fromAddress, wrap))
  }

  function ClientSection(log: seq<Cmd>, d: InvoiceData, wrap: Wrapper): seq<Cmd> {
    Party(log, "BILL TO", 110, 115, PartyLines(d.clientName, d.clientEmail, d.clientAddress, wrap))
  }

  method RenderParty(pdf: Surface, heading: string, boxX: int, textX: int, name: string, email: string, address: string)
    modifies pdf
    ensures pdf.log == Party(old(pdf.log), heading, boxX, textX, PartyLines(name, email, address, pdf.wrap))
    ensures pdf.font == PARTY_FONT
  {
    var boxY := PARTY_BOX_Y;
    pdf.SetFillColor(248, 249, 250);
    pdf.SetDrawColor(33, 37, 41);
    pdf.SetLineWidth(0.5);
    pdf.DrawRect(boxX, boxY, 85, 35, FillStroke);
    pdf.SetFontSize(11);
    pdf.SetFont("helvetica", Bold);
    pdf.SetTextColor(220, 53, 69);
    pdf.DrawText([heading], textX, boxY + 8, AlignLeft);
    pdf.SetFontSize(9);
    pdf.SetFont("helvetica", Normal);
    pdf.SetTextColor(33, 37, 41);
    var addressLines := pdf.SplitTextToSize(address, 75);
    var lines := [name, email] + addressLines;
    pdf.DrawColumn(lines, textX, boxY + 13, LINE_HEIGHT);
  }

  method RenderFromSection(pdf: Surface, d: InvoiceData)
    modifies pdf
    ensures pdf.log == FromSection(old(pdf.log), d, pdf.wrap) && pdf.font == PARTY_FONT
  {
    RenderParty(pdf, "BILL FROM", 15, 20, d.fromName, d.fromEmail, d.fromAddress);
  }

  method RenderClientSection(pdf: Surface, d: InvoiceData)
    modifies pdf
    ensures pdf.log == ClientSection(old(pdf.log), d, pdf.wrap) && pdf.font == PARTY_FONT
  {
    RenderParty(pdf, "BILL TO", 110, 115, d.clientName, d.clientEmail, d.clientAddress);
  }

  /** A party box lists name, email and the address wrapped at width 75 in 9 pt
      normal, line `i` at y 68 + 4i, inside a box whose text starts 5 right of its
      left edge. */
  lemma PartyLayout(log: seq<Cmd>, heading: string, boxX: int, textX: int,
                    name: string, email: string, address: string, wrap: Wrapper)
    ensures var lines := PartyLines(name, email, address, wrap);
      var cmds := Party(log, heading, boxX, textX, lines);
      && lines[0] == name && lines[1] == email && lines[2..] == wrap(address, 75, Font(Normal, 9))
      && |cmds| == |log| + 11 + |lines| && log <= cmds
      && cmds[|log| + 3] == Rect(boxX, 55, 85, 35, FillStroke)
      && cmds[|log| + 7] == Say(heading, textX, 63)
      && forall i :: 0 <= i < |lines| ==> cmds[|log| + 11 + i] == Say(lines[i], textX, 68 + 4 * i)
  {
  }

  // ---------------------------------------------------------------------------
  // Invoice details: a dark bar with four label/value columns.

  function InvoiceDetails(log: seq<Cmd>, d: InvoiceData, fmt: Fmt): seq<Cmd> {
    log
    + [FillColor(Rgb(33, 37, 41))] + [Rect(15, 100, 180, 20, Fill)]
    + [FontSize(9)] + [FontFace("helvetica", Normal)] + [TextColor(Rgb(255, 255, 255))]
    + [Say("Invoice #:", 20, 108)] + [Say(IntToString(d.invoiceNumber), 20, 113)]
    + [Say("Issue Date:", 70, 108)] + [Say(FormatDate(fmt, d), 70, 113)]
    + [Say("Due Date:", 120, 108)] + [Say(IntToString(d.dueDate) + " days", 120, 113)]
    + [Say("Currency:", 170, 108)] + [Say(d.currency, 170, 113)]
  }

  method RenderInvoiceDetails(pdf: Surface, d: InvoiceData, fmt: Fmt)
    modifies pdf
    ensures pdf.log == InvoiceDetails(old(pdf.log), d, fmt) && pdf.font == Font(Normal, 9)
  {
    pdf.SetFillColor(33, 37, 41);
    pdf.DrawRect(15, 100, 180, 20, Fill);
    pdf.SetFontSize(9);
    pdf.SetFont("helvetica", Normal);
    pdf.SetTextColor(255, 255, 255);
    pdf.DrawText(["Invoice #:"], 20, 108, AlignLeft);
    pdf.DrawText([IntToString(d.invoiceNumber)], 20, 113, AlignLeft);
    pdf.DrawText(["Issue Date:"], 70, 108, AlignLeft);
    pdf.DrawText([FormatDate(fmt, d)], 70, 113, AlignLeft);
    pdf.DrawText(["Due Date:"], 120, 108, AlignLeft);
    pdf.DrawText([IntToString(d.dueDate) + " days"], 120, 113, AlignLeft);
    pdf.DrawText(["Currency:"], 170, 108, AlignLeft);
    pdf.DrawText([d.currency], 170, 113, AlignLeft);
  }

  /** Column `k` has its label at (20 + 50k, 108) and its value 5 below, inside the
      dark bar. */
  lemma InvoiceDetailsLayout(log: seq<Cmd>, d: InvoiceData, fmt: Fmt)
    ensures var c := InvoiceDetails(log, d, fmt);
      && |c| == |log| + 13 && log <= c
      && (forall k :: 0 <= k < 4 ==>
            && c[|log| + 5 + 2 * k].tx == c[|log| + 6 + 2 * k].tx == 20 + 50 * k
            && c[|log| + 5 + 2 * k].ty == 108 && c[|log| + 6 + 2 * k].ty == 113)
      && c[|log| + 6] == Say(IntToString(d.invoiceNumber), 20, 113)
      && c[|log| + 12] == Say(d.currency, 170, 113)
  {
    var c := InvoiceDetails(log, d, fmt);
    assert c[|log| + 5].Text? && c[|log| + 7].Text? && c[|log| + 9].Text? && c[|log| + 11].Text?;
  }

  // ---------------------------------------------------------------------------
  // Item table: a dark heading bar, rows from y 145 alternating light gray and
  // white, each with a thin top rule, and a dark bottom rule after the last row.

  const TABLE_START_Y := 135
  const TABLE := TableGeometry(TABLE_START_Y + 10, 4, 75, Font(Normal, 10), Font(Normal, 9))

  function TableHead(log: seq<Cmd>): seq<Cmd> {
    log
    + [FillColor(Rgb(52, 58, 64))] + [Rect(15, TABLE_START_Y - 5, 180, 12, Fill)]
    + [FontSize(10)] + [FontFace("helvetica", Bold)] + [TextColor(Rgb(255, 255, 255))]
    + [Say("DESCRIPTION", 20, TABLE_START_Y)] + [Say("QTY", 105, TABLE_START_Y)]
    + [Say("RATE", 130, TABLE_START_Y)] + [Say("AMOUNT", 165, TABLE_START_Y)]
    + [TextColor(Rgb(33, 37, 41))] + [FontFace("helvetica", Normal)]
  }

  /** The fill of row `i`: light gray on even rows, white on odd ones. */
  function RowFill(i: nat): Rgb {
    if i % 2 == 0 then Rgb(248, 249, 250) else Rgb(255, 255, 255)
  }

  /** The background of row `i` at running offset `y`: its fill, a rectangle
      around the row and a thin rule along the rectangle's top edge. */
  function RowBackground(log: seq<Cmd>, wrap: Wrapper, item: Item, i: nat, y: int): seq<Cmd> {
    log
    + [FillColor(RowFill(i))]
    + [Rect(15, y - 3, 180, RowHeight(TABLE, wrap, item, i) + 6, Fill)]
    + [DrawColor(Rgb(222, 226, 230))] + [LineWidth(0.2)] + [Line(15, y - 3, 195, y - 3)]
  }

  /** The four cells of row `i` on the baseline `y + 2`, the amount in bold. */
  function RowCells(log: seq<Cmd>, d: InvoiceData, fmt: Fmt, wrap: Wrapper, item: Item, i: nat, y: int): seq<Cmd> {
    log
    + [FontSize(9)]
    + [Text(RowLines(TABLE, wrap, item, i), 20, y + 2, AlignLeft)]
    + [Say(fmt.number(item.quantity), 105, y + 2)]
    + [Say(FormatCurrency(fmt, d, item.rate), 130, y + 2)]
    + [FontFace("helvetica", Bold)]
    + [Say(FormatCurrency(fmt, d, Amount(item)), 165, y + 2)]
    + [FontFace("helvetica", Normal)]
  }

  /** The log after row `i`, showing `item`, is drawn at running offset `y`. */
  function Row(log: seq<Cmd>, d: InvoiceData, fmt: Fmt, wrap: Wrapper, item: Item, i: nat, y: int): seq<Cmd> {
    RowCells(RowBackground(log, wrap, item, i, y), d, fmt, wrap, item, i, y)
  }

  function RowRender(d: InvoiceData, fmt: Fmt, wrap: Wrapper): RowRenderer {
    (log: seq<Cmd>, item: Item, i: nat, y: int) => Row(log, d, fmt, wrap, item, i, y)
  }

  function Table(log: seq<Cmd>, d: InvoiceData, fmt: Fmt, wrap: Wrapper): seq<Cmd> {
    TableFoot(DrawRows(RowRender(d, fmt, wrap), TABLE, wrap, d.items, TableHead(log), |d.items|),
              TableEnd(TABLE, wrap, d.items))
  }

  /** The dark bottom rule at the offset `y` after the last row. */
  function TableFoot(log: seq<Cmd>, y: int): seq<Cmd> {
    log + [DrawColor(Rgb(33, 37, 41))] + [LineWidth(0.5)] + [Line(15, y, 195, y)]
  }

  method RenderTableHead(pdf: Surface)
    modifies pdf
    ensures pdf.log == TableHead(old(pdf.log)) && pdf.font == TABLE.headFont
  {
    var tableStartY := TABLE_START_Y;
    pdf.SetFillColor(52, 58, 64);
    pdf.DrawRect(15, tableStartY - 5, 180, 12, Fill);
    pdf.SetFontSize(10);
    pdf.SetFont("helvetica", Bold);
    pdf.SetTextColor(255, 255, 255);
    pdf.DrawText(["DESCRIPTION"], 20, tableStartY, AlignLeft);
    pdf.DrawText(["QTY"], 105, tableStartY, AlignLeft);
    pdf.DrawText(["RATE"], 130, tableStartY, AlignLeft);
    pdf.DrawText(["AMOUNT"], 165, tableStartY, AlignLeft);
    pdf.SetTextColor(33, 37, 41);
    pdf.SetFont("helvetica", Normal);
  }

  /** The first half of one iteration of the row loop: the alternating fill, the
      row background and its top rule. */
  method RenderRowBackground(pdf: Surface, item: Item, index: nat, currentY: int, itemHeight: int)
    requires itemHeight == RowHeight(TABLE, pdf.wrap, item, index)
    modifies pdf
    ensures pdf.log == RowBackground(old(pdf.log), pdf.wrap, item, index, currentY)
    ensures pdf.font == old(pdf.font)
  {
    if index % 2 == 0 {
      pdf.SetFillColor(248, 249, 250);
    } else {
      pdf.SetFillColor(255, 255, 255);
    }
    pdf.DrawRect(15, currentY - 3, 180, itemHeight + 6, Fill);
    pdf.SetDrawColor(222, 226, 230);
    pdf.SetLineWidth(0.2);
    pdf.DrawLine(15, currentY - 3, 195, currentY - 3);
  }

  /** The second half: the four cells, the amount in bold. */
  method RenderRowCells(pdf: Surface, d: InvoiceData, fmt: Fmt, item: Item, index: nat, currentY: int,
                        descriptionLines: seq<string>)
    requires descriptionLines == RowLines(TABLE, pdf.wrap, item, index)
    modifies pdf
    ensures pdf.log == RowCells(old(pdf.log), d, fmt, pdf.wrap, item, index, currentY)
    ensures pdf.font == TABLE.rowFont
  {
    pdf.SetFontSize(9);
    pdf.DrawText(descriptionLines, 20, currentY + 2, AlignLeft);
    pdf.DrawText([fmt.number(item.quantity)], 105, currentY + 2, AlignLeft);
    pdf.DrawText([FormatCurrency(fmt, d, item.rate)], 130, currentY + 2, AlignLeft);
    pdf.SetFont("helvetica", Bold);
    pdf.DrawText([FormatCurrency(fmt, d, Amount(item))], 165, currentY + 2, AlignLeft);
    pdf.SetFont("helvetica", Normal);
  }

  /** One iteration of the row loop: wraps the description under the current font,
      draws row `index` at `currentY` and returns its item height. */
  method RenderRow(pdf: Surface, d: InvoiceData, fmt: Fmt, item: Item, index: nat, currentY: int)
      returns (itemHeight: int)
    requires pdf.font == RowFont(TABLE, index)
    modifies pdf
    ensures pdf.log == Row(old(pdf.log), d, fmt, pdf.wrap, item, index, currentY)
    ensures pdf.font == TABLE.rowFont
    ensures itemHeight == RowHeight(TABLE, pdf.wrap, item, index)
  {
    var maxDescriptionWidth := 75;
    var descriptionLines := pdf.SplitTextToSize(item.description, maxDescriptionWidth);
    itemHeight := CalculateItemHeight(pdf, item.description, maxDescriptionWidth);
    RenderRowBackground(pdf, item, index, currentY, itemHeight);
    RenderRowCells(pdf, d, fmt, item, index, currentY, descriptionLines);
  }

  method RenderTable(pdf: Surface, d: InvoiceData, fmt: Fmt)
    modifies pdf
    ensures pdf.log == Table(old(pdf.log), d, fmt, pdf.wrap)
    ensures pdf.font == RowFont(TABLE, |d.items|)
  {
    RenderTableHead(pdf);
    var currentY := RenderRows(pdf, d, fmt);
    RenderTableFoot(pdf, currentY);
  }

  /** The row loop of the table: row `index` at the running offset `currentY`,
      which advances by the row's item height plus 4; returns the final offset. */
  method RenderRows(pdf: Surface, d: InvoiceData, fmt: Fmt) returns (currentY: int)
    requires pdf.font == TABLE.headFont
    modifies pdf
    ensures pdf.log == DrawRows(RowRender(d, fmt, pdf.wrap), TABLE, pdf.wrap, d.items, old(pdf.log), |d.items|)
    ensures pdf.font == RowFont(TABLE, |d.items|)
    ensures currentY == TableEnd(TABLE, pdf.wrap, d.items)
  {
    currentY := TABLE_START_Y + 10;
    for index := 0 to |d.items|
      invariant pdf.log == DrawRows(RowRender(d, fmt, pdf.wrap), TABLE, pdf.wrap, d.items, old(pdf.log), index)
      invariant currentY == RowTop(TABLE, pdf.wrap, d.items, index)
      invariant pdf.font == RowFont(TABLE, index)
    {
      var itemHeight := RenderRow(pdf, d, fmt, d.items[index], index, currentY);
      currentY := currentY + itemHeight + 4;
    }
  }

  method RenderTableFoot(pdf: Surface, currentY: int)
    modifies pdf
    ensures pdf.log == TableFoot(old(pdf.log), currentY) && pdf.font == old(pdf.font)
  {
    pdf.SetDrawColor(33, 37, 41);
    pdf.SetLineWidth(0.5);
    pdf.DrawLine(15, currentY, 195, currentY);
  }

  /** Every row appends twelve commands: its fill (alternating by parity), a
      background spanning y (y - 3)..(y + h + 3), a thin rule along the
      background's top edge, and the four cells on the baseline y + 2. */
  lemma RowShape(log: seq<Cmd>, d: InvoiceData, fmt: Fmt, wrap: Wrapper, item: Item, i: nat, y: int)
    ensures var r := Row(log, d, fmt, wrap, item, i, y);
      var h := RowHeight(TABLE, wrap, item, i);
      && |r| == |log| + 12 && log <= r
      && r[|log|] == FillColor(if i % 2 == 0 then Rgb(248, 249, 250) else Rgb(255, 255, 255))
      && r[|log| + 1] == Rect(15, y - 3, 195 - 15, (y + h + 3) - (y - 3), Fill)
      && r[|log| + 4] == Line(r[|log| + 1].x, r[|log| + 1].y, 195, r[|log| + 1].y)
      && r[|log| + 6] == Text(RowLines(TABLE, wrap, item, i), 20, y + 2, AlignLeft)
      && r[|log| + 10] == Say(fmt.currency(Amount(item), d.currency), 165, y + 2)
  {
  }

  /** Adjacent rows never share a fill. */
  lemma RowFillAlternates(i: nat)
    ensures RowFill(i) != RowFill(i + 1)
    ensures RowFill(i) == RowFill(i + 2)
  {
  }

  /** The first row is at y 145 and every later row at the previous one plus its
      item height plus 4; the bottom rule is drawn at the offset after the last row. */
  lemma RowOffsets(log: seq<Cmd>, d: InvoiceData, fmt: Fmt, wrap: Wrapper, i: nat, j: nat)
    requires i < j <= |d.items|
    ensures RowTop(TABLE, wrap, d.items, 0) == 145
    ensures RowTop(TABLE, wrap, d.items, i + 1)
         == RowTop(TABLE, wrap, d.items, i) + RowHeight(TABLE, wrap, d.items[i], i) + 4
    ensures RowTop(TABLE, wrap, d.items, i) + 8 <= RowTop(TABLE, wrap, d.items, j)
    ensures var t := Table(log, d, fmt, wrap);
      t[|t| - 1] == Line(15, TableEnd(TABLE, wrap, d.items), 195, TableEnd(TABLE, wrap, d.items))
  {
    RowTopStrictlyIncreasing(TABLE, wrap, d.items, i, j);
  }

  // ---------------------------------------------------------------------------
  // Total: a red box placed from the item count with a fixed 20 per item.

  function TotalY(d: InvoiceData): int {
    TABLE_START_Y + 10 + |d.items| * 20 + SECTION_SPACING
  }

  function Total(log: seq<Cmd>, d: InvoiceData, fmt: Fmt): seq<Cmd> {
    log
    + [FillColor(Rgb(220, 53, 69))] + [Rect(110, TotalY(d), 85, 18, Fill)]
    + [FontFace("helvetica", Bold)] + [FontSize(13)] + [TextColor(Rgb(255, 255, 255))]
    + [Say("TOTAL", 115, TotalY(d) + 7)]
    + [Say(FormatCurrency(fmt, d, d.total), 115, TotalY(d) + 13)]
    + [FontSize(9)]
    + [Say("(" + d.currency + ")", 170, TotalY(d) + 13)]
  }

  method RenderTotal(pdf: Surface, d: InvoiceData, fmt: Fmt)
    modifies pdf
    ensures pdf.log == Total(old(pdf.log), d, fmt) && pdf.font == Font(Bold, 9)
  {
    var totalSectionY := 135 + 10 + |d.items| * 20 + SECTION_SPACING;
    pdf.SetFillColor(220, 53, 69);
    pdf.DrawRect(110, totalSectionY, 85, 18, Fill);
    pdf.SetFont("helvetica", Bold);
    pdf.SetFontSize(13);
    pdf.SetTextColor(255, 255, 255);
    pdf.DrawText(["TOTAL"], 115, totalSectionY + 7, AlignLeft);
    pdf.DrawText([FormatCurrency(fmt, d, d.total)], 115, totalSectionY + 13, AlignLeft);
    pdf.SetFontSize(9);
    pdf.DrawText(["(" + d.currency + ")"], 170, totalSectionY + 13, AlignLeft);
  }

  /** The total box sits at 155 + 20n whatever the items are, and the amount and the
      currency label share a baseline inside it. */
  lemma TotalFromCountOnly(log: seq<Cmd>, d1: InvoiceData, d2: InvoiceData, fmt: Fmt)
    requires |d1.items| == |d2.items| && d1.currency == d2.currency && d1.total == d2.total
    ensures TotalY(d1) == 155 + 20 * |d1.items|
    ensures Total(log, d1, fmt) == Total(log, d2, fmt)
    ensures var t := Total(log, d1, fmt);
      && t[|log| + 6] == Say(fmt.currency(d1.total, d1.currency), 115, TotalY(d1) + 13)
      && t[|log| + 6].ty == t[|log| + 8].ty < t[|log| + 1].y + t[|log| + 1].h
  {
  }

  /** If no description wraps to more than four lines, the bottom rule of the table
      lies at least 10 above the total box. */
  lemma TableClearsTotal(d: InvoiceData, wrap: Wrapper)
    requires forall i :: 0 <= i < |d.items| ==> |RowLines(TABLE, wrap, d.items[i], i)| <= 4
    ensures TableEnd(TABLE, wrap, d.items) + 10 <= TotalY(d)
  {
    TableEndBound(TABLE, wrap, d.items, |d.items|, 4);
  }

  // ---------------------------------------------------------------------------
  // Note: skipped when missing or empty; otherwise an outlined box 30 below the
  // total's y.

  function NoteY(d: InvoiceData): int {
    TABLE_START_Y + 10 + |d.items| * 20 + SECTION_SPACING + 30
  }

  const NOTE_FONT := Font(Bold, 10)

  function Note(log: seq<Cmd>, d: InvoiceData, wrap: Wrapper): seq<Cmd> {
    if !HasNote(d) then log
    else
      log
      + [FillColor(Rgb(248, 249, 250))] + [DrawColor(Rgb(33, 37, 41))] + [LineWidth(0.5)]
      + [Rect(15, NoteY(d), 180, 25, FillStroke)]
      + [FontFace("helvetica", Bold)] + [FontSize(10)] + [TextColor(Rgb(220, 53, 69))]
      + [Say("NOTES", 20, NoteY(d) + 8)]
      + [FontFace("helvetica", Normal)] + [FontSize(9)] + [TextColor(Rgb(33, 37, 41))]
      + TextColumn(wrap(d.note.value, 165, NOTE_FONT), 20, NoteY(d) + 13, LINE_HEIGHT)
  }

  method RenderNote(pdf: Surface, d: InvoiceData)
    modifies pdf
    ensures pdf.log == Note(old(pdf.log), d, pdf.wrap)
    ensures pdf.font == if HasNote(d) then Font(Normal, 9) else old(pdf.font)
  {
    if !HasNote(d) {
      return;
    }
    var noteY := 135 + 10 + |d.items| * 20 + SECTION_SPACING + 30;
    pdf.SetFillColor(248, 249, 250);
    pdf.SetDrawColor(33, 37, 41);
    pdf.SetLineWidth(0.5);
    pdf.DrawRect(15, noteY, 180, 25, FillStroke);
    pdf.SetFont("helvetica", Bold);
    pdf.SetFontSize(10);
    pdf.SetTextColor(220, 53, 69);
    pdf.DrawText(["NOTES"], 20, noteY + 8, AlignLeft);
    var maxNoteWidth := 165;
    var noteLines := pdf.SplitTextToSize(d.note.value, maxNoteWidth);
    pdf.SetFont("helvetica", Normal);
    pdf.SetFontSize(9);
    pdf.SetTextColor(33, 37, 41);
    pdf.DrawColumn(noteLines, 20, noteY + 13, LINE_HEIGHT);
  }

  /** No note, no commands; otherwise the note box starts 12 below the total box and
      note line `i`, wrapped at width 165 in 10 pt bold, is at noteY + 13 + 4i. */
  lemma NoteLayout(log: seq<Cmd>, d: InvoiceData, wrap: Wrapper)
    ensures !HasNote(d) ==> Note(log, d, wrap) == log
    ensures HasNote(d) ==>
      var lines := wrap(d.note.value, 165, Font(Bold, 10));
      var c := Note(log, d, wrap);
      && NoteY(d) == TotalY(d) + 18 + 12
      && |c| == |log| + 11 + |lines| && log <= c
      && c[|log| + 3] == Rect(15, NoteY(d), 180, 25, FillStroke)
      && c[|log| + 7] == Say("NOTES", 20, NoteY(d) + 8)
      && forall i :: 0 <= i < |lines| ==> c[|log| + 11 + i] == Say(lines[i], 20, NoteY(d) + 13 + 4 * i)
  {
  }

  // ---------------------------------------------------------------------------
  // Footer: a dark band from the fixed y 270 to y 295.

  const FOOTER_Y := 275

  function Footer(log: seq<Cmd>, d: InvoiceData, year: int): seq<Cmd> {
    log
    + [FillColor(Rgb(33, 37, 41))] + [Rect(0, FOOTER_Y - 5, 210, 25, Fill)]
    + [FontSize(8)] + [FontFace("helvetica", Normal)] + [TextColor(Rgb(255, 255, 255))]
    + [Say("Thank you for choosing our services!", 20, FOOTER_Y + 5)]
    + [Say("© " + IntToString(year) + " InulTax - Professional Invoice Management", 20, FOOTER_Y + 10)]
    + [Say("Contact: " + d.fromEmail, 120, FOOTER_Y + 5)]
    + [Say("This document was generated automatically", 120, FOOTER_Y + 10)]
  }

  method RenderFooter(pdf: Surface, d: InvoiceData, year: int)
    modifies pdf
    ensures pdf.log == Footer(old(pdf.log), d, year) && pdf.font == Font(Normal, 8)
  {
    var footerY := FOOTER_Y;
    pdf.SetFillColor(33, 37, 41);
    pdf.DrawRect(0, footerY - 5, 210, 25, Fill);
    pdf.SetFontSize(8);
    pdf.SetFont("helvetica", Normal);
    pdf.SetTextColor(255, 255, 255);
    pdf.DrawText(["Thank you for choosing our services!"], 20, footerY + 5, AlignLeft);
    pdf.DrawText(["© " + IntToString(year) + " InulTax - Professional Invoice Management"], 20, footerY + 10, AlignLeft);
    pdf.DrawText(["Contact: " + d.fromEmail], 120, footerY + 5, AlignLeft);
    pdf.DrawText(["This document was generated automatically"], 120, footerY + 10, AlignLeft);
  }

  /** The footer band is the full page width over y 270..295, and the contact line
      is at (120, 280), whatever the invoice holds. */
  lemma FooterFixed(log: seq<Cmd>, d: InvoiceData, year: int)
    ensures var f := Footer(log, d, year);
      && |f| == |log| + 9 && log <= f
      && f[|log| + 1] == Rect(0, 270, 210, 25, Fill)
      && f[|log| + 1].y + f[|log| + 1].h == 295
      && f[|log| + 7] == Say("Contact: " + d.fromEmail, 120, 280)
  {
  }

  /** Every row only appends to the log it is given. */
  lemma RowRenderExtends(d: InvoiceData, fmt: Fmt, wrap: Wrapper)
    ensures forall l, item, j, y :: l <= RowRender(d, fmt, wrap)(l, item, j, y)
  {
    forall l, item, j, y
      ensures l <= RowRender(d, fmt, wrap)(l, item, j, y)
    {
      RowShape(l, d, fmt, wrap, item, j, y);
    }
  }
}
