/** The "Classic Minimal" theme: black rules and text on white, a shaded band on
    every even table row, and a total framed by two rules.

    Each section is specified by a function from the log before the section to
    the log after it, one appended command per drawing call. */
module ClassicMinimal {
  import opened Common
  import opened Strings
  import opened Surface
  import opened BaseTemplate

  // ---------------------------------------------------------------------------
  // Header

  function Header(log: seq<Cmd>, d: InvoiceData): seq<Cmd> {
    log
    + [DrawColor(Rgb(0, 0, 0))] + [LineWidth(0.5)] + [Line(15, 30, 195, 30)]
    + [TextColor(Rgb(0, 0, 0))] + [FontSize(24)] + [FontFace("helvetica", Bold)]
    + [Say(d.invoiceName, 20, 25)]
    + [FontSize(14)] + [FontFace("helvetica", Normal)]
    + [Say("INVOICE", 170, 25)]
  }

  method RenderHeader(pdf: Surface, d: InvoiceData)
    modifies pdf
    ensures pdf.log == Header(old(pdf.log), d) && pdf.font == Font(Normal, 14)
  {
    pdf.SetDrawColor(0, 0, 0);
    pdf.SetLineWidth(0.5);
    pdf.DrawLine(15, 30, 195, 30);
    pdf.SetTextColor(0, 0, 0);
    pdf.SetFontSize(24);
    pdf.SetFont("helvetica", Bold);
    pdf.DrawText([d.invoiceName], 20, 25, AlignLeft);
    pdf.SetFontSize(14);
    pdf.SetFont("helvetica", Normal);
    pdf.DrawText(["INVOICE"], 170, 25, AlignLeft);
  }

  /** The invoice name and the "INVOICE" label share the baseline y 25, above the
      rule at y 30. */
  lemma HeaderLayout(log: seq<Cmd>, d: InvoiceData)
    ensures var h := Header(log, d);
      && |h| == |log| + 10 && log <= h
      && h[|log| + 2] == Line(15, 30, 195, 30)
      && h[|log| + 6] == Say(d.invoiceName, 20, 25)
      && h[|log| + 9] == Say("INVOICE", 170, 25)
  {
  }

  // ---------------------------------------------------------------------------
  // From and client sections: a heading at y 45, then name, email and the address
  // wrapped at width 80, one line every LINE_HEIGHT from y 50.

  const PARTY_Y := 45
  const PARTY_WRAP := 80
  const PARTY_FONT := Font(Normal, 10)

  function PartyLines(name: string, email: string, address: string, wrap: Wrapper): seq<string> {
    [name, email] + wrap(address, PARTY_WRAP, PARTY_FONT)
  }

  function Party(log: seq<Cmd>, heading: string, x: int, lines: seq<string>): seq<Cmd> {
    log
    + [FontSize(10)] + [FontFace("helvetica", Bold)] + [TextColor(Rgb(0, 0, 0))]
    + [Say(heading, x, PARTY_Y)]
    + [FontFace("helvetica", Normal)]
    + TextColumn(lines, x, PARTY_Y + 5, LINE_HEIGHT)
  }

  function FromSection(log: seq<Cmd>, d: InvoiceData, wrap: Wrapper): seq<Cmd> {
    Party(log, "FROM:", 20, PartyLines(d.fromName, d.fromEmail, d.fromAddress, wrap))
  }

  function ClientSection(log: seq<Cmd>, d: InvoiceData, wrap: Wrapper): seq<Cmd> {
    Party(log, "TO:", 110, PartyLines(d.clientName, d.clientEmail, d.clientAddress, wrap))
  }

  method RenderParty(pdf: Surface, heading: string, x: int, name: string, email: string, address: string)
    modifies pdf
    ensures pdf.log == Party(old(pdf.log), heading, x, PartyLines(name, email, address, pdf.wrap))
    ensures pdf.font == PARTY_FONT
  {
    var y := PARTY_Y;
    pdf.SetFontSize(10);
    pdf.SetFont("helvetica", Bold);
    pdf.SetTextColor(0, 0, 0);
    pdf.DrawText([heading], x, y, AlignLeft);
    pdf.SetFont("helvetica", Normal);
    var addressLines := pdf.SplitTextToSize(address, 80);
    var lines := [name, email] + addressLines;
    pdf.DrawColumn(lines, x, y + 5, LINE_HEIGHT);
  }

  method RenderFromSection(pdf: Surface, d: InvoiceData)
    modifies pdf
    ensures pdf.log == FromSection(old(pdf.log), d, pdf.wrap) && pdf.font == PARTY_FONT
  {
    RenderParty(pdf, "FROM:", 20, d.fromName, d.fromEmail, d.fromAddress);
  }

  method RenderClientSection(pdf: Surface, d: InvoiceData)
    modifies pdf
    ensures pdf.log == ClientSection(old(pdf.log), d, pdf.wrap) && pdf.font == PARTY_FONT
  {
    RenderParty(pdf, "TO:", 110, d.clientName, d.clientEmail, d.clientAddress);
  }

  /** A party block lists name, email and the address wrapped at width 80 in 10 pt
      normal, line `i` at y 50 + 4i. */
  lemma PartyLayout(log: seq<Cmd>, heading: string, x: int,
                    name: string, email: string, address: string, wrap: Wrapper)
    ensures var lines := PartyLines(name, email, address, wrap);
      var cmds := Party(log, heading, x, lines);
      && lines[0] == name && lines[1] == email && lines[2..] == wrap(address, 80, Font(Normal, 10))
      && |cmds| == |log| + 5 + |lines| && log <= cmds
      && cmds[|log| + 3] == Say(heading, x, 45)
      && forall i :: 0 <= i < |lines| ==> cmds[|log| + 5 + i] == Say(lines[i], x, 50 + 4 * i)
  {
  }

  // ---------------------------------------------------------------------------
  // Invoice details: label and value pairs, one row every 5 from y 80.

  function InvoiceDetails(log: seq<Cmd>, d: InvoiceData, fmt: Fmt): seq<Cmd> {
    log
    + [FontSize(9)] + [FontFace("helvetica", Normal)] + [TextColor(Rgb(0, 0, 0))]
    + [Say("Invoice Number:", 20, 80)] + [Say("#" + IntToString(d.invoiceNumber), 60, 80)]
    + [Say("Date:", 20, 85)] + [Say(FormatDate(fmt, d), 60, 85)]
    + [Say("Due Date:", 20, 90)] + [Say(IntToString(d.dueDate) + " days", 60, 90)]
  }

  method RenderInvoiceDetails(pdf: Surface, d: InvoiceData, fmt: Fmt)
    modifies pdf
    ensures pdf.log == InvoiceDetails(old(pdf.log), d, fmt) && pdf.font == Font(Normal, 9)
  {
    var detailsY := 80;
    pdf.SetFontSize(9);
    pdf.SetFont("helvetica", Normal);
    pdf.SetTextColor(0, 0, 0);
    pdf.DrawText(["Invoice Number:"], 20, detailsY, AlignLeft);
    pdf.DrawText(["#" + IntToString(d.invoiceNumber)], 60, detailsY, AlignLeft);
    pdf.DrawText(["Date:"], 20, detailsY + 5, AlignLeft);
    pdf.DrawText([FormatDate(fmt, d)], 60, detailsY + 5, AlignLeft);
    pdf.DrawText(["Due Date:"], 20, detailsY + 10, AlignLeft);
    pdf.DrawText([IntToString(d.dueDate) + " days"], 60, detailsY + 10, AlignLeft);
  }

  /** Each label at x 20 has its value at x 60 on the same baseline. */
  lemma InvoiceDetailsLayout(log: seq<Cmd>, d: InvoiceData, fmt: Fmt)
    ensures var c := InvoiceDetails(log, d, fmt);
      && |c| == |log| + 9 && log <= c
      && (forall k :: 0 <= k < 3 ==>
            && c[|log| + 3 + 2 * k].tx == 20 && c[|log| + 4 + 2 * k].tx == 60
            && c[|log| + 3 + 2 * k].ty == c[|log| + 4 + 2 * k].ty == 80 + 5 * k)
      && c[|log| + 4] == Say("#" + IntToString(d.invoiceNumber), 60, 80)
      && c[|log| + 8] == Say(IntToString(d.dueDate) + " days", 60, 90)
  {
    var c := InvoiceDetails(log, d, fmt);
    assert c[|log| + 3].Text? && c[|log| + 5].Text? && c[|log| + 7].Text?;
  }

  // ---------------------------------------------------------------------------
  // Item table: rows from y 125, each advancing by its item height plus 5, and a
  // closing rule at the running offset after the last row.

  const TABLE_START_Y := 110
  const TABLE := TableGeometry(TABLE_START_Y + 15, 5, 75, Font(Normal, 10), Font(Normal, 9))

  function TableHead(log: seq<Cmd>): seq<Cmd> {
    log
    + [DrawColor(Rgb(0, 0, 0))] + [LineWidth(0.3)]
    + [Line(15, TABLE_START_Y - 2, 195, TABLE_START_Y - 2)] + [Line(15, TABLE_START_Y + 8, 195, TABLE_START_Y + 8)]
    + [FontSize(10)] + [FontFace("helvetica", Bold)] + [TextColor(Rgb(0, 0, 0))]
    + [Say("Description", 20, TABLE_START_Y + 3)] + [Say("Qty", 105, TABLE_START_Y + 3)]
    + [Say("Rate", 130, TABLE_START_Y + 3)] + [Say("Amount", 165, TABLE_START_Y + 3)]
    + [FontFace("helvetica", Normal)]
  }

  /** The log after row `i`, showing `item`, is drawn at running offset `y`: only
      even rows get a shaded background. */
  function Row(log: seq<Cmd>, d: InvoiceData, fmt: Fmt, wrap: Wrapper, item: Item, i: nat, y: int): seq<Cmd> {
    (if i % 2 == 0
     then log + [FillColor(Rgb(250, 250, 250))] + [Rect(15, y - 2, 180, RowHeight(TABLE, wrap, item, i) + 4, Fill)]
     else log)
    + [FontSize(9)]
    + [Text(RowLines(TABLE, wrap, item, i), 20, y + 1, AlignLeft)]
    + [Say(fmt.number(item.quantity), 105, y + 1)]
    + [Say(FormatCurrency(fmt, d, item.rate), 130, y + 1)]
    + [Say(FormatCurrency(fmt, d, Amount(item)), 165, y + 1)]
  }

  function RowRender(d: InvoiceData, fmt: Fmt, wrap: Wrapper): RowRenderer {
    (log: seq<Cmd>, item: Item, i: nat, y: int) => Row(log, d, fmt, wrap, item, i, y)
  }

  function Table(log: seq<Cmd>, d: InvoiceData, fmt: Fmt, wrap: Wrapper): seq<Cmd> {
    DrawRows(RowRender(d, fmt, wrap), TABLE, wrap, d.items, TableHead(log), |d.items|)
    + [Line(15, TableEnd(TABLE, wrap, d.items), 195, TableEnd(TABLE, wrap, d.items))]
  }

  /** The rules and column headings of the table, up to `currentY = tableStartY + 15`. */
  method RenderTableHead(pdf: Surface)
    modifies pdf
    ensures pdf.log == TableHead(old(pdf.log)) && pdf.font == TABLE.headFont
  {
    var tableStartY := TABLE_START_Y;
    pdf.SetDrawColor(0, 0, 0);
    pdf.SetLineWidth(0.3);
    pdf.DrawLine(15, tableStartY - 2, 195, tableStartY - 2);
    pdf.DrawLine(15, tableStartY + 8, 195, tableStartY + 8);
    pdf.SetFontSize(10);
    pdf.SetFont("helvetica", Bold);
    pdf.SetTextColor(0, 0, 0);
    pdf.DrawText(["Description"], 20, tableStartY + 3, AlignLeft);
    pdf.DrawText(["Qty"], 105, tableStartY + 3, AlignLeft);
    pdf.DrawText(["Rate"], 130, tableStartY + 3, AlignLeft);
    pdf.DrawText(["Amount"], 165, tableStartY + 3, AlignLeft);
    pdf.SetFont("helvetica", Normal);
  }

  /** One iteration of the row loop: draws row `index` at `currentY` and returns
      its item height. */
  method RenderRow(pdf: Surface, d: InvoiceData, fmt: Fmt, item: Item, index: nat, currentY: int)
      returns (itemHeight: int)
    requires pdf.font == RowFont(TABLE, index)
    modifies pdf
    ensures pdf.log == Row(old(pdf.log), d, fmt, pdf.wrap, item, index, currentY)
    ensures pdf.font == TABLE.rowFont
    ensures itemHeight == RowHeight(TABLE, pdf.wrap, item, index)
  {
    var maxDescriptionWidth := 75;
    var descriptionLines := pdf.SplitTextToSize(item.description, maxDescriptionWidth);
    itemHeight := CalculateItemHeight(pdf, item.description, maxDescriptionWidth);
    if index % 2 == 0 {
      pdf.SetFillColor(250, 250, 250);
      pdf.DrawRect(15, currentY - 2, 180, itemHeight + 4, Fill);
    }
    pdf.SetFontSize(9);
    pdf.DrawText(descriptionLines, 20, currentY + 1, AlignLeft);
    pdf.DrawText([fmt.number(item.quantity)], 105, currentY + 1, AlignLeft);
    pdf.DrawText([FormatCurrency(fmt, d, item.rate)], 130, currentY + 1, AlignLeft);
    pdf.DrawText([FormatCurrency(fmt, d, Amount(item))], 165, currentY + 1, AlignLeft);
  }

  method RenderTable(pdf: Surface, d: InvoiceData, fmt: Fmt)
    modifies pdf
    ensures pdf.log == Table(old(pdf.log), d, fmt, pdf.wrap)
    ensures pdf.font == RowFont(TABLE, |d.items|)
  {
    RenderTableHead(pdf);
    var currentY := RenderRows(pdf, d, fmt);
    pdf.DrawLine(15, currentY, 195, currentY);
  }

  /** The row loop of the table: row `index` at the running offset `currentY`,
      which advances by the row's item height plus 5; returns the final offset. */
  method RenderRows(pdf: Surface, d: InvoiceData, fmt: Fmt) returns (currentY: int)
    requires pdf.font == TABLE.headFont
    modifies pdf
    ensures pdf.log == DrawRows(RowRender(d, fmt, pdf.wrap), TABLE, pdf.wrap, d.items, old(pdf.log), |d.items|)
    ensures pdf.font == RowFont(TABLE, |d.items|)
    ensures currentY == TableEnd(TABLE, pdf.wrap, d.items)
  {
    currentY := TABLE_START_Y + 15;
    for index := 0 to |d.items|
      invariant pdf.log == DrawRows(RowRender(d, fmt, pdf.wrap), TABLE, pdf.wrap, d.items, old(pdf.log), index)
      invariant currentY == RowTop(TABLE, pdf.wrap, d.items, index)
      invariant pdf.font == RowFont(TABLE, index)
    {
      var itemHeight := RenderRow(pdf, d, fmt, d.items[index], index, currentY);
      currentY := currentY + itemHeight + 5;
    }
  }

  /** Even rows append a shading fill (250, 250, 250) and a background spanning
      y (y - 2)..(y + h + 2) before their seven text commands; odd rows append only
      the text commands, so they keep whatever fill was set before. */
  lemma RowShape(log: seq<Cmd>, d: InvoiceData, fmt: Fmt, wrap: Wrapper, item: Item, i: nat, y: int)
    ensures var r := Row(log, d, fmt, wrap, item, i, y);
      var h := RowHeight(TABLE, wrap, item, i);
      var shade := if i % 2 == 0 then 2 else 0;
      && |r| == |log| + shade + 5 && log <= r
      && (i % 2 == 0 ==>
            && r[|log|] == FillColor(Rgb(250, 250, 250))
            && r[|log| + 1] == Rect(15, y - 2, 195 - 15, (y + h + 2) - (y - 2), Fill))
      && (forall k :: |log| <= k < |r| ==> !r[k].FillColor? && !r[k].Rect?) == (i % 2 == 1)
      && r[|log| + shade + 1] == Text(RowLines(TABLE, wrap, item, i), 20, y + 1, AlignLeft)
      && r[|log| + shade + 4] == Say(fmt.currency(Amount(item), d.currency), 165, y + 1)
  {
    var r := Row(log, d, fmt, wrap, item, i, y);
    if i % 2 == 0 {
      assert r[|log|].FillColor?;
    }
  }

  /** The first row is at y 125, every later row at the previous one plus its item
      height plus 5, and the closing rule is drawn at the offset after the last row. */
  lemma RowOffsets(log: seq<Cmd>, d: InvoiceData, fmt: Fmt, wrap: Wrapper, i: nat, j: nat)
    requires i < j <= |d.items|
    ensures RowTop(TABLE, wrap, d.items, 0) == 125
    ensures RowTop(TABLE, wrap, d.items, i + 1)
         == RowTop(TABLE, wrap, d.items, i) + RowHeight(TABLE, wrap, d.items[i], i) + 5
    ensures RowTop(TABLE, wrap, d.items, i) + 8 <= RowTop(TABLE, wrap, d.items, j)
    ensures var t := Table(log, d, fmt, wrap);
      t[|t| - 1] == Line(15, TableEnd(TABLE, wrap, d.items), 195, TableEnd(TABLE, wrap, d.items))
  {
    RowTopStrictlyIncreasing(TABLE, wrap, d.items, i, j);
  }

  // ---------------------------------------------------------------------------
  // Total: placed from the item count with a fixed 15 per item, between two rules.

  function TotalY(d: InvoiceData): int {
    TABLE_START_Y + 15 + |d.items| * 15 + 10
  }

  function Total(log: seq<Cmd>, d: InvoiceData, fmt: Fmt): seq<Cmd> {
    log
    + [DrawColor(Rgb(0, 0, 0))] + [LineWidth(0.5)] + [Line(120, TotalY(d) - 2, 195, TotalY(d) - 2)]
    + [FontFace("helvetica", Bold)] + [FontSize(12)] + [TextColor(Rgb(0, 0, 0))]
    + [Say("TOTAL:", 130, TotalY(d) + 5)] + [Say(FormatCurrency(fmt, d, d.total), 165, TotalY(d) + 5)]
    + [Line(120, TotalY(d) + 8, 195, TotalY(d) + 8)]
  }

  method RenderTotal(pdf: Surface, d: InvoiceData, fmt: Fmt)
    modifies pdf
    ensures pdf.log == Total(old(pdf.log), d, fmt) && pdf.font == Font(Bold, 12)
  {
    var totalY := 110 + 15 + |d.items| * 15 + 10;
    pdf.SetDrawColor(0, 0, 0);
    pdf.SetLineWidth(0.5);
    pdf.DrawLine(120, totalY - 2, 195, totalY - 2);
    pdf.SetFont("helvetica", Bold);
    pdf.SetFontSize(12);
    pdf.SetTextColor(0, 0, 0);
    pdf.DrawText(["TOTAL:"], 130, totalY + 5, AlignLeft);
    pdf.DrawText([FormatCurrency(fmt, d, d.total)], 165, totalY + 5, AlignLeft);
    pdf.DrawLine(120, totalY + 8, 195, totalY + 8);
  }

  /** The total sits at 135 + 15n between rules 10 apart, whatever the items are. */
  lemma TotalFromCountOnly(log: seq<Cmd>, d1: InvoiceData, d2: InvoiceData, fmt: Fmt)
    requires |d1.items| == |d2.items| && d1.currency == d2.currency && d1.total == d2.total
    ensures TotalY(d1) == 135 + 15 * |d1.items|
    ensures Total(log, d1, fmt) == Total(log, d2, fmt)
    ensures var t := Total(log, d1, fmt);
      && t[|log| + 7] == Say(fmt.currency(d1.total, d1.currency), 165, TotalY(d1) + 5)
      && t[|log| + 2].y1 + 10 == t[|log| + 8].y1
  {
  }

  /** If every description fits in two lines each row advances by exactly 13, and
      the closing rule of the table lies above the upper rule of the total. */
  lemma TableClearsTotal(d: InvoiceData, wrap: Wrapper)
    requires forall i :: 0 <= i < |d.items| ==> |RowLines(TABLE, wrap, d.items[i], i)| <= 2
    ensures TableEnd(TABLE, wrap, d.items) == 125 + 13 * |d.items|
    ensures TableEnd(TABLE, wrap, d.items) < TotalY(d) - 2
  {
    TableEndOfShortRows(TABLE, wrap, d.items, |d.items|);
  }

  // ---------------------------------------------------------------------------
  // Note: skipped when missing or empty; otherwise a heading 20 below the total's y.

  function NoteY(d: InvoiceData): int {
    TABLE_START_Y + 15 + |d.items| * 15 + 30
  }

  const NOTE_FONT := Font(Bold, 10)

  function Note(log: seq<Cmd>, d: InvoiceData, wrap: Wrapper): seq<Cmd> {
    if !HasNote(d) then log
    else
      log
      + [FontFace("helvetica", Bold)] + [FontSize(10)] + [TextColor(Rgb(0, 0, 0))]
      + [Say("Notes:", 20, NoteY(d))]
      + [FontFace("helvetica", Normal)] + [FontSize(9)]
      + TextColumn(wrap(d.note.value, 170, NOTE_FONT), 20, NoteY(d) + 5, LINE_HEIGHT)
  }

  method RenderNote(pdf: Surface, d: InvoiceData)
    modifies pdf
    ensures pdf.log == Note(old(pdf.log), d, pdf.wrap)
    ensures pdf.font == if HasNote(d) then Font(Normal, 9) else old(pdf.font)
  {
    if !HasNote(d) {
      return;
    }
    var noteY := 110 + 15 + |d.items| * 15 + 30;
    pdf.SetFont("helvetica", Bold);
    pdf.SetFontSize(10);
    pdf.SetTextColor(0, 0, 0);
    pdf.DrawText(["Notes:"], 20, noteY, AlignLeft);
    var maxNoteWidth := 170;
    var noteLines := pdf.SplitTextToSize(d.note.value, maxNoteWidth);
    pdf.SetFont("helvetica", Normal);
    pdf.SetFontSize(9);
    pdf.DrawColumn(noteLines, 20, noteY + 5, LINE_HEIGHT);
  }

  /** No note, no commands; otherwise the heading is 20 below the total's y and note
      line `i`, wrapped at width 170 in 10 pt bold, is at noteY + 5 + 4i. */
  lemma NoteLayout(log: seq<Cmd>, d: InvoiceData, wrap: Wrapper)
    ensures !HasNote(d) ==> Note(log, d, wrap) == log
    ensures HasNote(d) ==>
      var lines := wrap(d.note.value, 170, Font(Bold, 10));
      var c := Note(log, d, wrap);
      && NoteY(d) == TotalY(d) + 20
      && |c| == |log| + 6 + |lines| && log <= c
      && c[|log| + 3] == Say("Notes:", 20, NoteY(d))
      && forall i :: 0 <= i < |lines| ==> c[|log| + 6 + i] == Say(lines[i], 20, NoteY(d) + 5 + 4 * i)
  {
  }

  // ---------------------------------------------------------------------------
  // Footer: a rule at the fixed y 270.

  const FOOTER_Y := 270

  function Footer(log: seq<Cmd>, d: InvoiceData, year: int): seq<Cmd> {
    log
    + [DrawColor(Rgb(0, 0, 0))] + [LineWidth(0.3)] + [Line(15, FOOTER_Y, 195, FOOTER_Y)]
    + [FontSize(8)] + [FontFace("helvetica", Normal)] + [TextColor(Rgb(100, 100, 100))]
    + [Say("Thank you for your business!", 20, FOOTER_Y + 8)]
    + [Say("Generated by InulTax - " + IntToString(year), 20, FOOTER_Y + 12)]
    + [Say("Contact: " + d.fromEmail, 120, FOOTER_Y + 8)]
  }

  method RenderFooter(pdf: Surface, d: InvoiceData, year: int)
    modifies pdf
    ensures pdf.log == Footer(old(pdf.log), d, year) && pdf.font == Font(Normal, 8)
  {
    var footerY := FOOTER_Y;
    pdf.SetDrawColor(0, 0, 0);
    pdf.SetLineWidth(0.3);
    pdf.DrawLine(15, footerY, 195, footerY);
    pdf.SetFontSize(8);
    pdf.SetFont("helvetica", Normal);
    pdf.SetTextColor(100, 100, 100);
    pdf.DrawText(["Thank you for your business!"], 20, footerY + 8, AlignLeft);
    pdf.DrawText(["Generated by InulTax - " + IntToString(year)], 20, footerY + 12, AlignLeft);
    pdf.DrawText(["Contact: " + d.fromEmail], 120, footerY + 8, AlignLeft);
  }

  /** The footer rule is at y 270 and the contact line at (120, 278) whatever the
      invoice holds and however long the page above it is. */
  lemma FooterFixed(log: seq<Cmd>, d: InvoiceData, year: int)
    ensures var f := Footer(log, d, year);
      && |f| == |log| + 9 && log <= f
      && f[|log| + 2] == Line(15, 270, 195, 270)
      && f[|log| + 7] == Say("Generated by InulTax - " + IntToString(year), 20, 282)
      && f[|log| + 8] == Say("Contact: " + d.fromEmail, 120, 278)
  {
  }

  /** Every row only appends to the log it is given. */
  lemma RowRenderExtends(d: InvoiceData, fmt: Fmt, wrap: Wrapper)
    ensures forall l, item, j, y :: l <= RowRender(d, fmt, wrap)(l, item, j, y)
  {
    forall l, item, j, y
      ensures l <= RowRender(d, fmt, wrap)(l, item, j, y)
    {
      RowShape(l, d, fmt, wrap, item, j, y);
    }
  }
}
