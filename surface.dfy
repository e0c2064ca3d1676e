/** The drawing surface the templates paint on: a jsPDF document reduced to the
    ordered log of drawing commands it receives, plus the font state that text
    measurement depends on. Coordinates are whole millimetres on an A4 page. */
module Surface {

  datatype FontStyle = Normal | Bold

  /** The font that `splitTextToSize` measures with. The family is always helvetica. */
  datatype Font = Font(style: FontStyle, size: int)

  datatype Rgb = Rgb(r: int, g: int, b: int)

  /** jsPDF's rectangle styles "F" (fill), "D" (draw the outline) and "FD" (both). */
  datatype RectStyle = Fill | Stroke | FillStroke

  datatype Align = AlignLeft | AlignCenter

  datatype Cmd =
    | FillColor(fill: Rgb)
    | DrawColor(draw: Rgb)
    | TextColor(ink: Rgb)
    | FontSize(size: int)
    | FontFace(family: string, style: FontStyle)
    | LineWidth(width: real)
    | Rect(x: int, y: int, w: int, h: int, paint: RectStyle)
    | Text(lines: seq<string>, tx: int, ty: int, align: Align)
    | Line(x1: int, y1: int, x2: int, y2: int)

  /** jsPDF's `splitTextToSize(text, maxWidth)` under the current font: a fixed but
      otherwise unknown function of the text, the width and the font. */
  type Wrapper = (string, int, Font) -> seq<string>

  /** A new jsPDF document uses 16 pt normal helvetica. */
  const INITIAL_FONT := Font(Normal, 16)

  /** A text command for a single line, left aligned. */
  function Say(s: string, x: int, y: int): Cmd {
    Text([s], x, y, AlignLeft)
  }

  /** One single-line text command per line, the i-th at `y + dy * i`. */
  function TextColumn(lines: seq<string>, x: int, y: int, dy: int): (r: seq<Cmd>)
  {
    seq(|lines|, i requires 0 <= i < |lines| => Say(lines[i], x, y + dy * i))
  }

  /** A column drawn after `head` puts line `i` at position |head| + i. */
  lemma ColumnAfter(head: seq<Cmd>, lines: seq<string>, x: int, y: int, dy: int)
    ensures |head + TextColumn(lines, x, y, dy)| == |head| + |lines|
    ensures head <= head + TextColumn(lines, x, y, dy)
    ensures forall i :: 0 <= i < |lines| ==> (head + TextColumn(lines, x, y, dy))[|head| + i] == Say(lines[i], x, y + dy * i)
  {
  }

  class Surface {
    const wrap: Wrapper
    var log: seq<Cmd>
    var font: Font

    constructor (wrap: Wrapper)
      ensures this.wrap == wrap && log == [] && font == INITIAL_FONT
    {
      this.wrap := wrap;
      log := [];
      font := INITIAL_FONT;
    }

    /** `splitTextToSize`: reads the surface, changes nothing. */
    function SplitTextToSize(text: string, maxWidth: int): seq<string>
      reads this
    {
      wrap(text, maxWidth, font)
    }

    method SetFillColor(r: int, g: int, b: int)
      modifies this
      ensures log == old(log) + [FillColor(Rgb(r, g, b))] && font == old(font)
    {
      log := log + [FillColor(Rgb(r, g, b))];
    }

    method SetDrawColor(r: int, g: int, b: int)
      modifies this
      ensures log == old(log) + [DrawColor(Rgb(r, g, b))] && font == old(font)
    {
      log := log + [DrawColor(Rgb(r, g, b))];
    }

    method SetTextColor(r: int, g: int, b: int)
      modifies this
      ensures log == old(log) + [TextColor(Rgb(r, g, b))] && font == old(font)
    {
      log := log + [TextColor(Rgb(r, g, b))];
    }

    /** `setFontSize` keeps the style. */
    method SetFontSize(size: int)
      modifies this
      ensures log == old(log) + [FontSize(size)] && font == Font(old(font).style, size)
    {
      log := log + [FontSize(size)];
      font := Font(font.style, size);
    }

    /** `setFont(family, style)` keeps the size. */
    method SetFont(family: string, style: FontStyle)
      modifies this
      ensures log == old(log) + [FontFace(family, style)] && font == Font(style, old(font).size)
    {
      log := log + [FontFace(family, style)];
      font := Font(style, font.size);
    }

    method SetLineWidth(width: real)
      modifies this
      ensures log == old(log) + [LineWidth(width)] && font == old(font)
    {
      log := log + [LineWidth(width)];
    }

    /** `rect(x, y, w, h, style)`. */
    method DrawRect(x: int, y: int, w: int, h: int, paint: RectStyle)
      modifies this
      ensures log == old(log) + [Rect(x, y, w, h, paint)] && font == old(font)
    {
      log := log + [Rect(x, y, w, h, paint)];
    }

    /** `text(lines, x, y, options)`; a single string is a one-line array. */
    method DrawText(lines: seq<string>, x: int, y: int, align: Align)
      modifies this
      ensures log == old(log) + [Text(lines, x, y, align)] && font == old(font)
    {
      log := log + [Text(lines, x, y, align)];
    }

    /** `line(x1, y1, x2, y2)`. */
    method DrawLine(x1: int, y1: int, x2: int, y2: int)
      modifies this
      ensures log == old(log) + [Line(x1, y1, x2, y2)] && font == old(font)
    {
      log := log + [Line(x1, y1, x2, y2)];
    }

    /** The templates' `lines.forEach((line, i) => text(line, x, y + i * dy))`. */
    method DrawColumn(lines: seq<string>, x: int, y: int, dy: int)
      modifies this
      ensures log == old(log) + TextColumn(lines, x, y, dy) && font == old(font)
    {
      for i := 0 to |lines|
        invariant log == old(log) + TextColumn(lines[..i], x, y, dy)
        invariant font == old(font)
      {
        DrawText([lines[i]], x, y + i * dy, AlignLeft);
        assert TextColumn(lines[..i + 1], x, y, dy)
            == TextColumn(lines[..i], x, y, dy) + [Say(lines[i], x, y + dy * i)];
      }
      assert lines[..|lines|] == lines;
    }
  }
}
