/** What every invoice template shares: the invoice record it renders, the layout
    constants, the item-height rule and the running row offset of the item table. */
module BaseTemplate {
  import opened Common
  import opened Surface

  datatype Item = Item(description: string, quantity: real, rate: real)

  /** The line amount a table row shows: quantity times rate. */
  function Amount(item: Item): real {
    item.quantity * item.rate
  }

  /** The invoice as the renderer receives it; `date` is a timestamp in milliseconds. */
  datatype InvoiceData = InvoiceData(
    invoiceName: string,
    invoiceNumber: int,
    currency: string,
    fromName: string,
    fromEmail: string,
    fromAddress: string,
    clientName: string,
    clientAddress: string,
    clientEmail: string,
    date: int,
    dueDate: int,
    total: real,
    note: Option<string>,
    items: seq<Item>)

  /** The formatting collaborators: `formatCurrency`, `formatIndonesiaDate` and a
      number's `toString()`, each a fixed but otherwise unknown function. */
  datatype Fmt = Fmt(currency: (real, string) -> string, date: int -> string, number: real -> string)

  const LINE_HEIGHT: int := 4
  const SECTION_SPACING: int := 10
  const MIN_ITEM_HEIGHT: int := 8

  function FormatCurrency(fmt: Fmt, d: InvoiceData, amount: real): string {
    fmt.currency(amount, d.currency)
  }

  function FormatDate(fmt: Fmt, d: InvoiceData): string {
    fmt.date(d.date)
  }

  /** `if (!this.data.note) return;`: a missing or empty note is skipped. */
  predicate HasNote(d: InvoiceData) {
    d.note.Some? && d.note.value != ""
  }

  // ---------------------------------------------------------------------------
  // Item height: `Math.max(lines.length * LINE_HEIGHT, minHeight)`.

  /** The height reserved for an item whose description wraps to `lineCount` lines:
      the larger of the lines' height and the minimum height. */
  function ItemHeight(lineCount: nat): (h: int)
    ensures h >= MIN_ITEM_HEIGHT && h >= lineCount * 4
    ensures h == MIN_ITEM_HEIGHT || h == lineCount * 4
  {
    if lineCount * 4 > MIN_ITEM_HEIGHT then lineCount * 4 else MIN_ITEM_HEIGHT
  }

  /** `calculateItemHeight(description, maxWidth)`: wraps with the surface's current
      font, exactly as the following `wrapText` call of the table does. */
  function CalculateItemHeight(pdf: Surface, description: string, maxWidth: int): int
    reads pdf
  {
    ItemHeight(|pdf.SplitTextToSize(description, maxWidth)|)
  }

  lemma ItemHeightAtLeastMin(pdf: Surface, description: string, maxWidth: int)
    ensures CalculateItemHeight(pdf, description, maxWidth) >= 8
  {
  }

  lemma ItemHeightOfFewLines(n: nat)
    requires n <= 2
    ensures ItemHeight(n) == 8
  {
  }

  lemma ItemHeightOfManyLines(n: nat)
    requires n >= 2
    ensures ItemHeight(n) == 4 * n
  {
  }

  lemma ItemHeightMonotone(m: nat, n: nat)
    requires m <= n
    ensures ItemHeight(m) <= ItemHeight(n)
  {
  }

  // ---------------------------------------------------------------------------
  // The running offset through an item table.

  /** A theme's table layout: the y of the first row, the extra advance after each
      row, the description wrap width, the font the first row is measured with (the
      one the table header leaves) and the font later rows are measured with (the
      one the previous row leaves). */
  datatype TableGeometry = TableGeometry(start: int, gap: int, width: int, headFont: Font, rowFont: Font)

  function RowFont(g: TableGeometry, i: nat): Font {
    if i == 0 then g.headFont else g.rowFont
  }

  /** The wrapped description lines of row `i`. */
  function RowLines(g: TableGeometry, wrap: Wrapper, item: Item, i: nat): seq<string> {
    wrap(item.description, g.width, RowFont(g, i))
  }

  /** The item height of row `i`. */
  function RowHeight(g: TableGeometry, wrap: Wrapper, item: Item, i: nat): int {
    ItemHeight(|RowLines(g, wrap, item, i)|)
  }

  /** `currentY` when row `k` is drawn: the start plus, for every earlier row, its
      item height and the gap. `RowTop(g, wrap, items, |items|)` is the table end. */
  function RowTop(g: TableGeometry, wrap: Wrapper, items: seq<Item>, k: nat): int
    requires k <= |items|
    decreases k
  {
    if k == 0 then g.start
    else RowTop(g, wrap, items, k - 1) + RowHeight(g, wrap, items[k - 1], k - 1) + g.gap
  }

  function TableEnd(g: TableGeometry, wrap: Wrapper, items: seq<Item>): int {
    RowTop(g, wrap, items, |items|)
  }

  /** Rows never overlap: every row starts below the previous row's height. */
  lemma {:induction false} RowTopStrictlyIncreasing(g: TableGeometry, wrap: Wrapper, items: seq<Item>, i: nat, j: nat)
    requires g.gap >= 0
    requires i < j <= |items|
    ensures RowTop(g, wrap, items, i) + MIN_ITEM_HEIGHT <= RowTop(g, wrap, items, j)
    decreases j
  {
    if i < j - 1 {
      RowTopStrictlyIncreasing(g, wrap, items, i, j - 1);
    }
  }

  /** When no description wraps to more than `maxLines` lines, the table ends no
      lower than the per-row estimate `maxLines * LINE_HEIGHT + gap` allows. */
  lemma {:induction false} TableEndBound(g: TableGeometry, wrap: Wrapper, items: seq<Item>, k: nat, maxLines: nat)
    requires k <= |items| && maxLines >= 2
    requires forall i :: 0 <= i < k ==> |RowLines(g, wrap, items[i], i)| <= maxLines
    ensures RowTop(g, wrap, items, k) <= g.start + k * (maxLines * LINE_HEIGHT + g.gap)
    decreases k
  {
    if k > 0 {
      TableEndBound(g, wrap, items, k - 1, maxLines);
      ItemHeightMonotone(|RowLines(g, wrap, items[k - 1], k - 1)|, maxLines);
      assert (k - 1) * (maxLines * LINE_HEIGHT + g.gap) + (maxLines * LINE_HEIGHT + g.gap)
          == k * (maxLines * LINE_HEIGHT + g.gap);
    }
  }

  /** A theme's row renderer: the log after drawing row `i`, showing `item`, at the
      running offset `y` onto `log`. */
  type RowRenderer = (seq<Cmd>, Item, nat, int) -> seq<Cmd>

  /** The log after drawing the first `k` table rows onto `log`: row `i` at its
      running offset `RowTop(.., i)`, in item order. */
  function DrawRows(row: RowRenderer, g: TableGeometry, wrap: Wrapper, items: seq<Item>, log: seq<Cmd>, k: nat): seq<Cmd>
    requires k <= |items|
    decreases k
  {
    if k == 0 then log
    else row(DrawRows(row, g, wrap, items, log, k - 1), items[k - 1], k - 1, RowTop(g, wrap, items, k - 1))
  }

  /** A renderer that only appends leaves every earlier row's commands in place. */
  lemma {:induction false} DrawRowsPrefix(row: RowRenderer, g: TableGeometry, wrap: Wrapper, items: seq<Item>,
                                         log: seq<Cmd>, i: nat, k: nat)
    requires i <= k <= |items|
    requires forall l, item, j, y :: l <= row(l, item, j, y)
    ensures DrawRows(row, g, wrap, items, log, i) <= DrawRows(row, g, wrap, items, log, k)
    decreases k
  {
    if i < k {
      DrawRowsPrefix(row, g, wrap, items, log, i, k - 1);
    }
  }

  /** When every row appends `len` commands the first `k` rows append `len * k`. */
  lemma {:induction false} DrawRowsLength(row: RowRenderer, g: TableGeometry, wrap: Wrapper, items: seq<Item>,
                                         log: seq<Cmd>, k: nat, len: nat)
    requires k <= |items|
    requires forall l, item, j, y :: |row(l, item, j, y)| == |l| + len
    ensures |DrawRows(row, g, wrap, items, log, k)| == |log| + len * k
    decreases k
  {
    if k > 0 {
      DrawRowsLength(row, g, wrap, items, log, k - 1, len);
      calc {
        |DrawRows(row, g, wrap, items, log, k)|;
        |log| + len * (k - 1) + len;
        |log| + len * k;
      }
    }
  }

  /** When every description fits in two lines, each row advances by exactly the
      minimum height plus the gap. */
  lemma {:induction false} TableEndOfShortRows(g: TableGeometry, wrap: Wrapper, items: seq<Item>, k: nat)
    requires k <= |items|
    requires forall i :: 0 <= i < k ==> |RowLines(g, wrap, items[i], i)| <= 2
    ensures RowTop(g, wrap, items, k) == g.start + k * (MIN_ITEM_HEIGHT + g.gap)
    decreases k
  {
    if k > 0 {
      TableEndOfShortRows(g, wrap, items, k - 1);
      assert (k - 1) * (MIN_ITEM_HEIGHT + g.gap) + (MIN_ITEM_HEIGHT + g.gap)
          == k * (MIN_ITEM_HEIGHT + g.gap);
    }
  }
}
