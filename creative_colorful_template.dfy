/** The "Creative Colorful" theme: a three-band header, pastel party boxes with
    coloured borders, four coloured detail boxes, table rows cycling through a
    five-colour palette, a pink and gold total bar and a rainbow footer strip.

    Each section is specified by a function from the log before the section to
    the log after it, one appended command per drawing call. */
module CreativeColorful {
  import opened Common
  import opened Strings
  import opened Surface
  import opened BaseTemplate

  const WHITE := Rgb(255, 255, 255)
  const DEEP_PINK := Rgb(255, 20, 147)

  // ---------------------------------------------------------------------------
  // Header

  function Header(log: seq<Cmd>, d: InvoiceData): seq<Cmd> {
    log
    + [FillColor(Rgb(138, 43, 226))] + [Rect(0, 0, 210, 15, Fill)]
    + [FillColor(Rgb(75, 0, 130))] + [Rect(0, 15, 210, 15, Fill)]
    + [FillColor(Rgb(0, 191, 255))] + [Rect(0, 30, 210, 10, Fill)]
    + [TextColor(WHITE)] + [FontSize(28)] + [FontFace("helvetica", Bold)]
    + [Say(d.invoiceName, 20, 25)]
    + [FillColor(DEEP_PINK)] + [Rect(140, 8, 55, 15, Fill)]
    + [TextColor(WHITE)] + [FontSize(12)] + [FontFace("helvetica", Bold)]
    + [Text(["INVOICE"], 167, 17, AlignCenter)]
  }

  method RenderHeader(pdf: Surface, d: InvoiceData)
    modifies pdf
    ensures pdf.log == Header(old(pdf.log), d) && pdf.font == Font(Bold, 12)
  {
    pdf.SetFillColor(138, 43, 226);
    pdf.DrawRect(0, 0, 210, 15, Fill);
    pdf.SetFillColor(75, 0, 130);
    pdf.DrawRect(0, 15, 210, 15, Fill);
    pdf.SetFillColor(0, 191, 255);
    pdf.DrawRect(0, 30, 210, 10, Fill);
    pdf.SetTextColor(255, 255, 255);
    pdf.SetFontSize(28);
    pdf.SetFont("helvetica", Bold);
    pdf.DrawText([d.invoiceName], 20, 25, AlignLeft);
    pdf.SetFillColor(255, 20, 147);
    pdf.DrawRect(140, 8, 55, 15, Fill);
    pdf.SetTextColor(255, 255, 255);
    pdf.SetFontSize(12);
    pdf.SetFont("helvetica", Bold);
    pdf.DrawText(["INVOICE"], 167, 17, AlignCenter);
  }

  /** The three header bands stack without gaps from y 0 to y 40, and the centred
      label is at the horizontal middle of the badge. */
  lemma HeaderLayout(log: seq<Cmd>, d: InvoiceData)
    ensures var h := Header(log, d);
      && |h| == |log| + 16 && log <= h
      && h[|log| + 1].y == 0
      && h[|log| + 1].y + h[|log| + 1].h == h[|log| + 3].y
      && h[|log| + 3].y + h[|log| + 3].h == h[|log| + 5].y
      && h[|log| + 5].y + h[|log| + 5].h == 40
      && 2 * h[|log| + 15].tx + 1 == 2 * h[|log| + 11].x + h[|log| + 11].w
      && h[|log| + 9] == Say(d.invoiceName, 20, 25)
  {
  }

  // ---------------------------------------------------------------------------
  // From and client sections: a pastel box at y 55 with a 1-unit coloured border,
  // a coloured heading, then name, email and the address wrapped at width 75,
  // one line every LINE_HEIGHT from y 68.

  /** The four colours of a party box: fill, border, heading ink and body ink. */
  datatype PartyStyle = PartyStyle(fill: Rgb, border: Rgb, headingInk: Rgb, bodyInk: Rgb)

  const FROM_STYLE := PartyStyle(Rgb(255, 182, 193), DEEP_PINK, Rgb(138, 43, 226), Rgb(75, 0, 130))
  const CLIENT_STYLE := PartyStyle(Rgb(173, 216, 230), Rgb(0, 191, 255), Rgb(0, 100, 0), Rgb(25, 25, 112))

  const PARTY_BOX_Y := 55
  const PARTY_WRAP := 75
  const PARTY_FONT := Font(Normal, 9)

  function PartyLines(name: string, email: string, address: string, wrap: Wrapper): seq<string> {
    [name, email] + wrap(address, PARTY_WRAP, PARTY_FONT)
  }

  function Party(log: seq<Cmd>, style: PartyStyle, heading: string, boxX: int, textX: int, lines: seq<string>): seq<Cmd> {
    log
    + [FillColor(style.fill)] + [Rect(boxX, PARTY_BOX_Y, 85, 35, Fill)]
    + [DrawColor(style.border)] + [LineWidth(1.0)] + [Rect(boxX, PARTY_BOX_Y, 85, 35, Stroke)]
    + [FontSize(12)] + [FontFace("helvetica", Bold)] + [TextColor(style.headingInk)]
    + [Say(heading, textX, PARTY_BOX_Y + 8)]
    + [FontSize(9)] + [FontFace("helvetica", Normal)] + [TextColor(style.bodyInk)]
    + TextColumn(lines, textX, PARTY_BOX_Y + 13, LINE_HEIGHT)
  }

  function FromSection(log: seq<Cmd>, d: InvoiceData, wrap: Wrapper): seq<Cmd> {
    Party(log, FROM_STYLE, "FROM", 15, 20, PartyLines(d.fromName, d.fromEmail, d.fromAddress, wrap))
  }

  function ClientSection(log: seq<Cmd>, d: InvoiceData, wrap: Wrapper): seq<Cmd> {
    Party(log, CLIENT_STYLE, "TO", 110, 115, PartyLines(d.clientName, d.clientEmail, d.clientAddress, wrap))
  }

  method RenderParty(pdf: Surface, style: PartyStyle, heading: string, boxX: int, textX: int,
                     name: string, email: string, address: string)
    modifies pdf
    ensures pdf.log == Party(old(pdf.log), style, heading, boxX, textX, PartyLines(name, email, address, pdf.wrap))
    ensures pdf.font == PARTY_FONT
  {
    var boxY := PARTY_BOX_Y;
    pdf.SetFillColor(style.fill.r, style.fill.g, style.fill.b);
    pdf.DrawRect(boxX, boxY, 85, 35, Fill);
    pdf.SetDrawColor(style.border.r, style.border.g, style.border.b);
    pdf.SetLineWidth(1.0);
    pdf.DrawRect(boxX, boxY, 85, 35, Stroke);
    pdf.SetFontSize(12);
    pdf.SetFont("helvetica", Bold);
    pdf.SetTextColor(style.headingInk.r, style.headingInk.g, style.headingInk.b);
    pdf.DrawText([heading], textX, boxY + 8, AlignLeft);
    pdf.SetFontSize(9);
    pdf.SetFont("helvetica", Normal);
    pdf.SetTextColor(style.bodyInk.r, style.bodyInk.g, style.bodyInk.b);
    var addressLines := pdf.SplitTextToSize(address, 75);
    var lines := [name, email] + addressLines;
    pdf.DrawColumn(lines, textX, boxY + 13, LINE_HEIGHT);
  }

  method RenderFromSection(pdf: Surface, d: InvoiceData)
    modifies pdf
    ensures pdf.log == FromSection(old(pdf.log), d, pdf.wrap) && pdf.font == PARTY_FONT
  {
    RenderParty(pdf, FROM_STYLE, "FROM", 15, 20, d.fromName, d.fromEmail, d.fromAddress);
  }

  method RenderClientSection(pdf: Surface, d: InvoiceData)
    modifies pdf
    ensures pdf.log == ClientSection(old(pdf.log), d, pdf.wrap) && pdf.font == PARTY_FONT
  {
    RenderParty(pdf, CLIENT_STYLE, "TO", 110, 115, d.clientName, d.clientEmail, d.clientAddress);
  }

  /** A party box is filled and then outlined over the same rectangle, and lists
      name, email and the address wrapped at width 75 in 9 pt normal, line `i` at
      y 68 + 4i. */
  lemma PartyLayout(log: seq<Cmd>, style: PartyStyle, heading: string, boxX: int, textX: int,
                    name: string, email: string, address: string, wrap: Wrapper)
    ensures var lines := PartyLines(name, email, address, wrap);
      var cmds := Party(log, style, heading, boxX, textX, lines);
      && lines[0] == name && lines[1] == email && lines[2..] == wrap(address, 75, Font(Normal, 9))
      && |cmds| == |log| + 12 + |lines| && log <= cmds
      && cmds[|log| + 1] == Rect(boxX, 55, 85, 35, Fill)
      && cmds[|log| + 4] == cmds[|log| + 1].(paint := Stroke)
      && cmds[|log| + 8] == Say(heading, textX, 63)
      && forall i :: 0 <= i < |lines| ==> cmds[|log| + 12 + i] == Say(lines[i], textX, 68 + 4 * i)
  {
  }

  // ---------------------------------------------------------------------------
  // Invoice details: four coloured boxes side by side at y 100, each with a label
  // and a value inset by 2.

  const DETAILS_Y := 100

  /** A details box: its fill, the rectangle and the ink of its two texts. */
  function DetailBox(log: seq<Cmd>, fill: Rgb, x: int, w: int, ink: Rgb): seq<Cmd> {
    log + [FillColor(fill)] + [Rect(x, DETAILS_Y, w, 15, Fill)] + [TextColor(ink)]
  }

  /** The label and the value of a details box whose left edge is `x`. */
  function DetailTexts(log: seq<Cmd>, x: int, caption: string, value: string): seq<Cmd> {
    log + [Say(caption, x + 2, DETAILS_Y + 5)] + [Say(value, x + 2, DETAILS_Y + 10)]
  }

  function InvoiceDetails(log: seq<Cmd>, d: InvoiceData, fmt: Fmt): seq<Cmd> {
    var number := DetailTexts(
      DetailBox(log, Rgb(255, 215, 0), 15, 40, Rgb(139, 69, 19)) + [FontSize(8)] + [FontFace("helvetica", Bold)],
      15, "INVOICE #", IntToString(d.invoiceNumber));
    var date := DetailTexts(DetailBox(number, Rgb(144, 238, 144), 60, 45, Rgb(0, 100, 0)),
      60, "DATE", FormatDate(fmt, d));
    var due := DetailTexts(DetailBox(date, Rgb(255, 160, 122), 110, 40, Rgb(220, 20, 60)),
      110, "DUE", IntToString(d.dueDate) + " days");
    DetailTexts(DetailBox(due, Rgb(221, 160, 221), 155, 40, Rgb(128, 0, 128)),
      155, "CURRENCY", d.currency)
  }

  method RenderDetailBox(pdf: Surface, fill: Rgb, x: int, w: int, ink: Rgb)
    modifies pdf
    ensures pdf.log == DetailBox(old(pdf.log), fill, x, w, ink) && pdf.font == old(pdf.font)
  {
    pdf.SetFillColor(fill.r, fill.g, fill.b);
    pdf.DrawRect(x, DETAILS_Y, w, 15, Fill);
    pdf.SetTextColor(ink.r, ink.g, ink.b);
  }

  method RenderDetailTexts(pdf: Surface, x: int, caption: string, value: string)
    modifies pdf
    ensures pdf.log == DetailTexts(old(pdf.log), x, caption, value) && pdf.font == old(pdf.font)
  {
    pdf.DrawText([caption], x + 2, DETAILS_Y + 5, AlignLeft);
    pdf.DrawText([value], x + 2, DETAILS_Y + 10, AlignLeft);
  }

  method RenderInvoiceDetails(pdf: Surface, d: InvoiceData, fmt: Fmt)
    modifies pdf
    ensures pdf.log == InvoiceDetails(old(pdf.log), d, fmt)
    ensures pdf.font == Font(Bold, 8)
  {
    RenderDetailBox(pdf, Rgb(255, 215, 0), 15, 40, Rgb(139, 69, 19));
    pdf.SetFontSize(8);
    pdf.SetFont("helvetica", Bold);
    RenderDetailTexts(pdf, 15, "INVOICE #", IntToString(d.invoiceNumber));
    RenderDetailBox(pdf, Rgb(144, 238, 144), 60, 45, Rgb(0, 100, 0));
    RenderDetailTexts(pdf, 60, "DATE", FormatDate(fmt, d));
    RenderDetailBox(pdf, Rgb(255, 160, 122), 110, 40, Rgb(220, 20, 60));
    RenderDetailTexts(pdf, 110, "DUE", IntToString(d.dueDate) + " days");
    RenderDetailBox(pdf, Rgb(221, 160, 221), 155, 40, Rgb(128, 0, 128));
    RenderDetailTexts(pdf, 155, "CURRENCY", d.currency);
  }

  /** The four boxes are laid out left to right with a gap of 5 between
      neighbours, and every label and value lies inside its box. */
  lemma InvoiceDetailsLayout(log: seq<Cmd>, d: InvoiceData, fmt: Fmt)
    ensures var c := InvoiceDetails(log, d, fmt);
      var boxes := [c[|log| + 1], c[|log| + 8], c[|log| + 13], c[|log| + 18]];
      var texts := [c[|log| + 5], c[|log| + 10], c[|log| + 15], c[|log| + 20]];
      && |c| == |log| + 22 && log <= c
      && (forall k :: 0 <= k < 4 ==>
            && boxes[k].Rect? && texts[k].Text?
            && boxes[k].x < texts[k].tx < boxes[k].x + boxes[k].w
            && boxes[k].y < texts[k].ty < texts[k].ty + 5 < boxes[k].y + boxes[k].h)
      && (forall k :: 0 <= k < 3 ==> boxes[k].x + boxes[k].w + 5 == boxes[k + 1].x)
      && c[|log| + 6] == Say(IntToString(d.invoiceNumber), 17, 110)
      && c[|log| + 21] == Say(d.currency, 157, 110)
  {
  }

  // ---------------------------------------------------------------------------
  // Item table: a four-colour heading, rows from y 140 whose fill cycles through a
  // five-colour palette, each outlined in deep pink.

  const TABLE_START_Y := 130
  const TABLE := TableGeometry(TABLE_START_Y + 10, 4, 70, Font(Normal, 10), Font(Normal, 9))

  /** The row palette: lavender blush, alice blue, mint cream, floral white and
      ghost white. */
  const ITEM_COLORS: seq<Rgb> :=
    [Rgb(255, 240, 245), Rgb(240, 248, 255), Rgb(245, 255, 250), Rgb(255, 250, 240), Rgb(248, 248, 255)]

  function RowFill(i: nat): Rgb {
    ITEM_COLORS[i % |ITEM_COLORS|]
  }

  function TableHead(log: seq<Cmd>): seq<Cmd> {
    log
    + [FillColor(Rgb(255, 99, 71))] + [Rect(15, TABLE_START_Y - 5, 85, 12, Fill)]
    + [FillColor(Rgb(255, 215, 0))] + [Rect(100, TABLE_START_Y - 5, 25, 12, Fill)]
    + [FillColor(Rgb(50, 205, 50))] + [Rect(125, TABLE_START_Y - 5, 35, 12, Fill)]
    + [FillColor(Rgb(30, 144, 255))] + [Rect(160, TABLE_START_Y - 5, 35, 12, Fill)]
    + [FontSize(10)] + [FontFace("helvetica", Bold)] + [TextColor(WHITE)]
    + [Say("DESCRIPTION", 20, TABLE_START_Y)] + [Say("QTY", 105, TABLE_START_Y)]
    + [Say("RATE", 130, TABLE_START_Y)] + [Say("TOTAL", 165, TABLE_START_Y)]
    + [TextColor(Rgb(0, 0, 0))] + [FontFace("helvetica", Normal)]
  }

  /** The background of row `i` at running offset `y`: its palette fill and the
      same rectangle outlined in deep pink. */
  function RowBackground(log: seq<Cmd>, wrap: Wrapper, item: Item, i: nat, y: int): seq<Cmd> {
    log
    + [FillColor(RowFill(i))]
    + [Rect(15, y - 3, 180, RowHeight(TABLE, wrap, item, i) + 6, Fill)]
    + [DrawColor(DEEP_PINK)] + [LineWidth(0.3)]
    + [Rect(15, y - 3, 180, RowHeight(TABLE, wrap, item, i) + 6, Stroke)]
  }

  /** The four cells of row `i` on the baseline `y + 2`, the amount in bold pink. */
  function RowCells(log: seq<Cmd>, d: InvoiceData, fmt: Fmt, wrap: Wrapper, item: Item, i: nat, y: int): seq<Cmd> {
    log
    + [FontSize(9)]
    + [Text(RowLines(TABLE, wrap, item, i), 20, y + 2, AlignLeft)]
    + [Say(fmt.number(item.quantity), 105, y + 2)]
    + [Say(FormatCurrency(fmt, d, item.rate), 130, y + 2)]
    + [FontFace("helvetica", Bold)] + [TextColor(DEEP_PINK)]
    + [Say(FormatCurrency(fmt, d, Amount(item)), 165, y + 2)]
    + [FontFace("helvetica", Normal)] + [TextColor(Rgb(0, 0, 0))]
  }

  function Row(log: seq<Cmd>, d: InvoiceData, fmt: Fmt, wrap: Wrapper, item: Item, i: nat, y: int): seq<Cmd> {
    RowCells(RowBackground(log, wrap, item, i, y), d, fmt, wrap, item, i, y)
  }

  function RowRender(d: InvoiceData, fmt: Fmt, wrap: Wrapper): RowRenderer {
    (log: seq<Cmd>, item: Item, i: nat, y: int) => Row(log, d, fmt, wrap, item, i, y)
  }

  /** This theme draws no rule below the last row. */
  function Table(log: seq<Cmd>, d: InvoiceData, fmt: Fmt, wrap: Wrapper): seq<Cmd> {
    DrawRows(RowRender(d, fmt, wrap), TABLE, wrap, d.items, TableHead(log), |d.items|)
  }

  method RenderTableHead(pdf: Surface)
    modifies pdf
    ensures pdf.log == TableHead(old(pdf.log)) && pdf.font == TABLE.headFont
  {
    var tableStartY := TABLE_START_Y;
    pdf.SetFillColor(255, 99, 71);
    pdf.DrawRect(15, tableStartY - 5, 85, 12, Fill);
    pdf.SetFillColor(255, 215, 0);
    pdf.DrawRect(100, tableStartY - 5, 25, 12, Fill);
    pdf.SetFillColor(50, 205, 50);
    pdf.DrawRect(125, tableStartY - 5, 35, 12, Fill);
    pdf.SetFillColor(30, 144, 255);
    pdf.DrawRect(160, tableStartY - 5, 35, 12, Fill);
    pdf.SetFontSize(10);
    pdf.SetFont("helvetica", Bold);
    pdf.SetTextColor(255, 255, 255);
    pdf.DrawText(["DESCRIPTION"], 20, tableStartY, AlignLeft);
    pdf.DrawText(["QTY"], 105, tableStartY, AlignLeft);
    pdf.DrawText(["RATE"], 130, tableStartY, AlignLeft);
    pdf.DrawText(["TOTAL"], 165, tableStartY, AlignLeft);
    pdf.SetTextColor(0, 0, 0);
    pdf.SetFont("helvetica", Normal);
  }

  /** The four heading cells tile the table's width 15..195 without gaps. */
  lemma TableHeadTiles(log: seq<Cmd>)
    ensures var t := TableHead(log);
      var cells := [t[|log| + 1], t[|log| + 3], t[|log| + 5], t[|log| + 7]];
      && (forall k :: 0 <= k < 4 ==> cells[k].Rect? && cells[k].y == 125 && cells[k].h == 12)
      && cells[0].x == 15 && cells[3].x + cells[3].w == 195
      && (forall k :: 0 <= k < 3 ==> cells[k].x + cells[k].w == cells[k + 1].x)
  {
  }

  method RenderRowBackground(pdf: Surface, item: Item, index: nat, currentY: int, itemHeight: int)
    requires itemHeight == RowHeight(TABLE, pdf.wrap, item, index)
    modifies pdf
    ensures pdf.log == RowBackground(old(pdf.log), pdf.wrap, item, index, currentY)
    ensures pdf.font == old(pdf.font)
  {
    var colorIndex := index % |ITEM_COLORS|;
    var color := ITEM_COLORS[colorIndex];
    pdf.SetFillColor(color.r, color.g, color.b);
    pdf.DrawRect(15, currentY - 3, 180, itemHeight + 6, Fill);
    pdf.SetDrawColor(255, 20, 147);
    pdf.SetLineWidth(0.3);
    pdf.DrawRect(15, currentY - 3, 180, itemHeight + 6, Stroke);
  }

  method RenderRowCells(pdf: Surface, d: InvoiceData, fmt: Fmt, item: Item, index: nat, currentY: int,
                        descriptionLines: seq<string>)
    requires descriptionLines == RowLines(TABLE, pdf.wrap, item, index)
    modifies pdf
    ensures pdf.log == RowCells(old(pdf.log), d, fmt, pdf.wrap, item, index, currentY)
    ensures pdf.font == TABLE.rowFont
  {
    pdf.SetFontSize(9);
    pdf.DrawText(descriptionLines, 20, currentY + 2, AlignLeft);
    pdf.DrawText([fmt.number(item.quantity)], 105, currentY + 2, AlignLeft);
    pdf.DrawText([FormatCurrency(fmt, d, item.rate)], 130, currentY + 2, AlignLeft);
    pdf.SetFont("helvetica", Bold);
    pdf.SetTextColor(255, 20, 147);
    pdf.DrawText([FormatCurrency(fmt, d, Amount(item))], 165, currentY + 2, AlignLeft);
    pdf.SetFont("helvetica", Normal);
    pdf.SetTextColor(0, 0, 0);
  }

  /** One iteration of the row loop: wraps the description under the current font,
      draws row `index` at `currentY` and returns its item height. */
  method RenderRow(pdf: Surface, d: InvoiceData, fmt: Fmt, item: Item, index: nat, currentY: int)
      returns (itemHeight: int)
    requires pdf.font == RowFont(TABLE, index)
    modifies pdf
    ensures pdf.log == Row(old(pdf.log), d, fmt, pdf.wrap, item, index, currentY)
    ensures pdf.font == TABLE.rowFont
    ensures itemHeight == RowHeight(TABLE, pdf.wrap, item, index)
  {
    var maxDescriptionWidth := 70;
    var descriptionLines := pdf.SplitTextToSize(item.description, maxDescriptionWidth);
    itemHeight := CalculateItemHeight(pdf, item.description, maxDescriptionWidth);
    RenderRowBackground(pdf, item, index, currentY, itemHeight);
    RenderRowCells(pdf, d, fmt, item, index, currentY, descriptionLines);
  }

  method RenderTable(pdf: Surface, d: InvoiceData, fmt: Fmt)
    modifies pdf
    ensures pdf.log == Table(old(pdf.log), d, fmt, pdf.wrap)
    ensures pdf.font == RowFont(TABLE, |d.items|)
  {
    RenderTableHead(pdf);
    var currentY := RenderRows(pdf, d, fmt);
  }

  /** The row loop of the table: row `index` at the running offset `currentY`,
      which advances by the row's item height plus 4; returns the final offset. */
  method RenderRows(pdf: Surface, d: InvoiceData, fmt: Fmt) returns (currentY: int)
    requires pdf.font == TABLE.headFont
    modifies pdf
    ensures pdf.log == DrawRows(RowRender(d, fmt, pdf.wrap), TABLE, pdf.wrap, d.items, old(pdf.log), |d.items|)
    ensures pdf.font == RowFont(TABLE, |d.items|)
    ensures currentY == TableEnd(TABLE, pdf.wrap, d.items)
  {
    currentY := TABLE_START_Y + 10;
    for index := 0 to |d.items|
      invariant pdf.log == DrawRows(RowRender(d, fmt, pdf.wrap), TABLE, pdf.wrap, d.items, old(pdf.log), index)
      invariant currentY == RowTop(TABLE, pdf.wrap, d.items, index)
      invariant pdf.font == RowFont(TABLE, index)
    {
      var itemHeight := RenderRow(pdf, d, fmt, d.items[index], index, currentY);
      currentY := currentY + itemHeight + 4;
    }
  }

  /** Every row appends fourteen commands: its palette fill, a background spanning
      y (y - 3)..(y + h + 3), the same rectangle outlined, and the four cells on the
      baseline y + 2, the amount in deep pink. */
  lemma RowShape(log: seq<Cmd>, d: InvoiceData, fmt: Fmt, wrap: Wrapper, item: Item, i: nat, y: int)
    ensures var r := Row(log, d, fmt, wrap, item, i, y);
      var h := RowHeight(TABLE, wrap, item, i);
      && |r| == |log| + 14 && log <= r
      && r[|log|] == FillColor(ITEM_COLORS[i % 5])
      && r[|log| + 1] == Rect(15, y - 3, 195 - 15, (y + h + 3) - (y - 3), Fill)
      && r[|log| + 4] == r[|log| + 1].(paint := Stroke)
      && r[|log| + 6] == Text(RowLines(TABLE, wrap, item, i), 20, y + 2, AlignLeft)
      && r[|log| + 10] == TextColor(DEEP_PINK)
      && r[|log| + 11] == Say(fmt.currency(Amount(item), d.currency), 165, y + 2)
  {
  }

  /** The palette repeats every five rows, and any five consecutive rows have five
      different fills. */
  lemma RowFillCycle(i: nat, j: nat)
    ensures RowFill(i + 5) == RowFill(i)
    ensures i < j < i + 5 ==> RowFill(i) != RowFill(j)
  {
    assert forall a, b :: 0 <= a < b < 5 ==> ITEM_COLORS[a] != ITEM_COLORS[b];
    if i < j < i + 5 {
      assert i % 5 != j % 5;
    }
  }

  /** The first row is at y 140 and every later row at the previous one plus its
      item height plus 4. */
  lemma RowOffsets(d: InvoiceData, wrap: Wrapper, i: nat, j: nat)
    requires i < j <= |d.items|
    ensures RowTop(TABLE, wrap, d.items, 0) == 140
    ensures RowTop(TABLE, wrap, d.items, i + 1)
         == RowTop(TABLE, wrap, d.items, i) + RowHeight(TABLE, wrap, d.items[i], i) + 4
    ensures RowTop(TABLE, wrap, d.items, i) + 8 <= RowTop(TABLE, wrap, d.items, j)
  {
    RowTopStrictlyIncreasing(TABLE, wrap, d.items, i, j);
  }

  // ---------------------------------------------------------------------------
  // Total: a pink bar with gold edges placed from the item count with a fixed 20
  // per item.

  function TotalY(d: InvoiceData): int {
    TABLE_START_Y + 10 + |d.items| * 20 + SECTION_SPACING
  }

  function Total(log: seq<Cmd>, d: InvoiceData, fmt: Fmt): seq<Cmd> {
    log
    + [FillColor(DEEP_PINK)] + [Rect(100, TotalY(d), 95, 15, Fill)]
    + [FillColor(Rgb(255, 215, 0))] + [Rect(100, TotalY(d), 95, 2, Fill)] + [Rect(100, TotalY(d) + 13, 95, 2, Fill)]
    + [FontFace("helvetica", Bold)] + [FontSize(12)] + [TextColor(WHITE)]
    + [Say("GRAND TOTAL: " + FormatCurrency(fmt, d, d.total), 105, TotalY(d) + 9)]
  }

  method RenderTotal(pdf: Surface, d: InvoiceData, fmt: Fmt)
    modifies pdf
    ensures pdf.log == Total(old(pdf.log), d, fmt) && pdf.font == Font(Bold, 12)
  {
    var totalSectionY := 130 + 10 + |d.items| * 20 + SECTION_SPACING;
    pdf.SetFillColor(255, 20, 147);
    pdf.DrawRect(100, totalSectionY, 95, 15, Fill);
    pdf.SetFillColor(255, 215, 0);
    pdf.DrawRect(100, totalSectionY, 95, 2, Fill);
    pdf.DrawRect(100, totalSectionY + 13, 95, 2, Fill);
    pdf.SetFont("helvetica", Bold);
    pdf.SetFontSize(12);
    pdf.SetTextColor(255, 255, 255);
    var totalText := "GRAND TOTAL: " + FormatCurrency(fmt, d, d.total);
    pdf.DrawText([totalText], 105, totalSectionY + 9, AlignLeft);
  }

  /** The bar sits at 150 + 20n whatever the items are; its gold edges are its top
      and bottom 2 units, and the one line of text lies between them. */
  lemma TotalFromCountOnly(log: seq<Cmd>, d1: InvoiceData, d2: InvoiceData, fmt: Fmt)
    requires |d1.items| == |d2.items| && d1.currency == d2.currency && d1.total == d2.total
    ensures TotalY(d1) == 150 + 20 * |d1.items|
    ensures Total(log, d1, fmt) == Total(log, d2, fmt)
    ensures var t := Total(log, d1, fmt);
      var bar, top, bottom := t[|log| + 1], t[|log| + 3], t[|log| + 4];
      && top.y == bar.y && bottom.y + bottom.h == bar.y + bar.h
      && top.y + top.h < t[|log| + 8].ty < bottom.y
      && t[|log| + 8] == Say("GRAND TOTAL: " + fmt.currency(d1.total, d1.currency), 105, TotalY(d1) + 9)
  {
  }

  /** If no description wraps to more than four lines, the rows end at least 10
      above the total bar. */
  lemma TableClearsTotal(d: InvoiceData, wrap: Wrapper)
    requires forall i :: 0 <= i < |d.items| ==> |RowLines(TABLE, wrap, d.items[i], i)| <= 4
    ensures TableEnd(TABLE, wrap, d.items) + 10 <= TotalY(d)
  {
    TableEndBound(TABLE, wrap, d.items, |d.items|, 4);
  }

  // ---------------------------------------------------------------------------
  // Note: skipped when missing or empty; otherwise an orange-bordered box 25 below
  // the total's y.

  function NoteY(d: InvoiceData): int {
    TABLE_START_Y + 10 + |d.items| * 20 + SECTION_SPACING + 25
  }

  const NOTE_FONT := Font(Bold, 11)

  /** The note box at `y` with its border and heading. */
  function NoteBox(log: seq<Cmd>, y: int): seq<Cmd> {
    log
    + [FillColor(Rgb(255, 248, 220))] + [Rect(15, y, 180, 25, Fill)]
    + [DrawColor(Rgb(255, 140, 0))] + [LineWidth(1.0)] + [Rect(15, y, 180, 25, Stroke)]
    + [FontFace("helvetica", Bold)] + [FontSize(11)] + [TextColor(Rgb(255, 140, 0))]
    + [Say("SPECIAL NOTES", 20, y + 8)]
  }

  /** The wrapped note lines, one every LINE_HEIGHT from `y + 13`. */
  function NoteBody(log: seq<Cmd>, lines: seq<string>, y: int): seq<Cmd> {
    log
    + [FontFace("helvetica", Normal)] + [FontSize(9)] + [TextColor(Rgb(139, 69, 19))]
    + TextColumn(lines, 20, y + 13, LINE_HEIGHT)
  }

  function Note(log: seq<Cmd>, d: InvoiceData, wrap: Wrapper): seq<Cmd> {
    if !HasNote(d) then log
    else NoteBody(NoteBox(log, NoteY(d)), wrap(d.note.value, 165, NOTE_FONT), NoteY(d))
  }

  method RenderNoteBox(pdf: Surface, noteY: int)
    modifies pdf
    ensures pdf.log == NoteBox(old(pdf.log), noteY) && pdf.font == NOTE_FONT
  {
    pdf.SetFillColor(255, 248, 220);
    pdf.DrawRect(15, noteY, 180, 25, Fill);
    pdf.SetDrawColor(255, 140, 0);
    pdf.SetLineWidth(1.0);
    pdf.DrawRect(15, noteY, 180, 25, Stroke);
    pdf.SetFont("helvetica", Bold);
    pdf.SetFontSize(11);
    pdf.SetTextColor(255, 140, 0);
    pdf.DrawText(["SPECIAL NOTES"], 20, noteY + 8, AlignLeft);
  }

  method RenderNote(pdf: Surface, d: InvoiceData)
    modifies pdf
    ensures pdf.log == Note(old(pdf.log), d, pdf.wrap)
    ensures pdf.font == if HasNote(d) then Font(Normal, 9) else old(pdf.font)
  {
    if !HasNote(d) {
      return;
    }
    var noteY := 130 + 10 + |d.items| * 20 + SECTION_SPACING + 25;
    RenderNoteBox(pdf, noteY);
    var maxNoteWidth := 165;
    var noteLines := pdf.SplitTextToSize(d.note.value, maxNoteWidth);
    pdf.SetFont("helvetica", Normal);
    pdf.SetFontSize(9);
    pdf.SetTextColor(139, 69, 19);
    pdf.DrawColumn(noteLines, 20, noteY + 13, LINE_HEIGHT);
  }

  /** No note, no commands; otherwise the note box starts 10 below the total bar and
      note line `i`, wrapped at width 165 in 11 pt bold, is at noteY + 13 + 4i. */
  lemma NoteLayout(log: seq<Cmd>, d: InvoiceData, wrap: Wrapper)
    ensures !HasNote(d) ==> Note(log, d, wrap) == log
    ensures HasNote(d) ==>
      var lines := wrap(d.note.value, 165, Font(Bold, 11));
      var c := Note(log, d, wrap);
      && NoteY(d) == TotalY(d) + 15 + 10
      && |c| == |log| + 12 + |lines| && log <= c
      && c[|log| + 1] == Rect(15, NoteY(d), 180, 25, Fill)
      && c[|log| + 8] == Say("SPECIAL NOTES", 20, NoteY(d) + 8)
      && forall i :: 0 <= i < |lines| ==> c[|log| + 12 + i] == Say(lines[i], 20, NoteY(d) + 13 + 4 * i)
  {
  }

  // ---------------------------------------------------------------------------
  // Footer: a rainbow of seven strips 25 wide from x 15 at the fixed y 270, then
  // two columns of text.

  const FOOTER_Y := 270

  /** Red, orange, yellow, green, blue, indigo and violet. */
  const RAINBOW: seq<Rgb> :=
    [Rgb(255, 0, 0), Rgb(255, 165, 0), Rgb(255, 255, 0), Rgb(0, 128, 0),
     Rgb(0, 0, 255), Rgb(75, 0, 130), Rgb(238, 130, 238)]

  /** The log after the first `k` rainbow strips: strip `j` in colour `j` at
      x 15 + 25j. */
  function Strips(log: seq<Cmd>, k: nat): seq<Cmd>
    requires k <= |RAINBOW|
    decreases k
  {
    if k == 0 then log
    else Strips(log, k - 1) + [FillColor(RAINBOW[k - 1])] + [Rect(15 + (k - 1) * 25, FOOTER_Y, 25, 3, Fill)]
  }

  function FooterText(log: seq<Cmd>, d: InvoiceData, year: int): seq<Cmd> {
    log
    + [FontSize(8)] + [FontFace("helvetica", Normal)] + [TextColor(Rgb(138, 43, 226))]
    + [Say("Thank you for your amazing business!", 20, FOOTER_Y + 10)]
    + [Say("Created with love by InulTax - " + IntToString(year), 20, FOOTER_Y + 15)]
    + [TextColor(DEEP_PINK)]
    + [Say("Email: " + d.fromEmail, 120, FOOTER_Y + 10)]
    + [Say("Auto-generated with creative flair!", 120, FOOTER_Y + 15)]
  }

  function Footer(log: seq<Cmd>, d: InvoiceData, year: int): seq<Cmd> {
    FooterText(Strips(log, |RAINBOW|), d, year)
  }

  method RenderStrips(pdf: Surface)
    modifies pdf
    ensures pdf.log == Strips(old(pdf.log), |RAINBOW|) && pdf.font == old(pdf.font)
  {
    var footerY := FOOTER_Y;
    for index := 0 to |RAINBOW|
      invariant pdf.log == Strips(old(pdf.log), index)
      invariant pdf.font == old(pdf.font)
    {
      var color := RAINBOW[index];
      pdf.SetFillColor(color.r, color.g, color.b);
      pdf.DrawRect(15 + index * 25, footerY, 25, 3, Fill);
    }
  }

  method RenderFooterText(pdf: Surface, d: InvoiceData, year: int)
    modifies pdf
    ensures pdf.log == FooterText(old(pdf.log), d, year) && pdf.font == Font(Normal, 8)
  {
    var footerY := FOOTER_Y;
    pdf.SetFontSize(8);
    pdf.SetFont("helvetica", Normal);
    pdf.SetTextColor(138, 43, 226);
    pdf.DrawText(["Thank you for your amazing business!"], 20, footerY + 10, AlignLeft);
    pdf.DrawText(["Created with love by InulTax - " + IntToString(year)], 20, footerY + 15, AlignLeft);
    pdf.SetTextColor(255, 20, 147);
    pdf.DrawText(["Email: " + d.fromEmail], 120, footerY + 10, AlignLeft);
    pdf.DrawText(["Auto-generated with creative flair!"], 120, footerY + 15, AlignLeft);
  }

  method RenderFooter(pdf: Surface, d: InvoiceData, year: int)
    modifies pdf
    ensures pdf.log == Footer(old(pdf.log), d, year) && pdf.font == Font(Normal, 8)
  {
    RenderStrips(pdf);
    RenderFooterText(pdf, d, year);
  }

  /** The first `k` strips append two commands each: strip `j` sets colour `j` and
      fills the 25-wide rectangle starting at x 15 + 25j on y 270. */
  lemma {:induction false} StripsLayout(log: seq<Cmd>, k: nat)
    requires k <= |RAINBOW|
    ensures |Strips(log, k)| == |log| + 2 * k && log <= Strips(log, k)
    ensures forall j :: 0 <= j < k ==>
      && Strips(log, k)[|log| + 2 * j] == FillColor(RAINBOW[j])
      && Strips(log, k)[|log| + 2 * j + 1] == Rect(15 + 25 * j, 270, 25, 3, Fill)
    decreases k
  {
    if k > 0 {
      StripsLayout(log, k - 1);
      var prev := Strips(log, k - 1);
      assert Strips(log, k) == prev + [FillColor(RAINBOW[k - 1]), Rect(15 + (k - 1) * 25, FOOTER_Y, 25, 3, Fill)];
    }
  }

  /** The first `k` strips tile the band from x 15 to x 15 + 25k without gaps or
      overlap; all seven reach x 190. */
  lemma RainbowTiles(log: seq<Cmd>, k: nat)
    requires 0 < k <= |RAINBOW|
    ensures var s := Strips(log, k);
      && |s| == |log| + 2 * k
      && s[|log| + 1].Rect? && s[|log| + 1].x == 15
      && s[|log| + 2 * k - 1].Rect? && s[|log| + 2 * k - 1].x + s[|log| + 2 * k - 1].w == 15 + 25 * k
      && (k == |RAINBOW| ==> s[|log| + 2 * k - 1].x + s[|log| + 2 * k - 1].w == 190)
      && (forall j :: 0 <= j < k - 1 ==>
            && s[|log| + 2 * j + 1].Rect? && s[|log| + 2 * j + 3].Rect?
            && s[|log| + 2 * j + 1].x + s[|log| + 2 * j + 1].w == s[|log| + 2 * j + 3].x)
  {
    StripsLayout(log, k);
    var s := Strips(log, k);
    assert s[|log| + 2 * 0 + 1] == Rect(15, 270, 25, 3, Fill);
    assert s[|log| + 2 * (k - 1) + 1] == Rect(15 + 25 * (k - 1), 270, 25, 3, Fill);
    forall j | 0 <= j < k - 1
      ensures s[|log| + 2 * j + 3] == Rect(15 + 25 * (j + 1), 270, 25, 3, Fill)
    {
      assert s[|log| + 2 * (j + 1) + 1] == Rect(15 + 25 * (j + 1), 270, 25, 3, Fill);
    }
  }

  /** The footer text sits below the strips at fixed positions, whatever the
      invoice holds. */
  lemma FooterFixed(log: seq<Cmd>, d: InvoiceData, year: int)
    ensures var f := FooterText(log, d, year);
      && |f| == |log| + 8 && log <= f
      && f[|log| + 3] == Say("Thank you for your amazing business!", 20, 280)
      && f[|log| + 4] == Say("Created with love by InulTax - " + IntToString(year), 20, 285)
      && f[|log| + 6] == Say("Email: " + d.fromEmail, 120, 280)
  {
  }

  /** Every row only appends to the log it is given. */
  lemma RowRenderExtends(d: InvoiceData, fmt: Fmt, wrap: Wrapper)
    ensures forall l, item, j, y :: l <= RowRender(d, fmt, wrap)(l, item, j, y)
  {
    forall l, item, j, y
      ensures l <= RowRender(d, fmt, wrap)(l, item, j, y)
    {
      RowShape(l, d, fmt, wrap, item, j, y);
    }
  }
}
