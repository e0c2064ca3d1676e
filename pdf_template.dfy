/** `BasePdfTemplate` and its four subclasses. A template holds the invoice, the
    formatting collaborators and its own drawing surface; `generate` runs the eight
    render steps of its theme, in a fixed order, on that surface. The subclass
    chosen at construction is the `theme` field, and each step dispatches on it. */
module PdfTemplate {
  import opened Common
  import opened Surface
  import opened BaseTemplate
  import ModernBlue
  import ClassicMinimal
  import ProfessionalDark
  import CreativeColorful

  datatype Theme = ModernBlueTheme | ClassicMinimalTheme | ProfessionalDarkTheme | CreativeColorfulTheme

  // ---------------------------------------------------------------------------
  // The eight steps of each theme, as functions of the log before the step.

  function HeaderStep(theme: Theme, log: seq<Cmd>, d: InvoiceData): seq<Cmd> {
    match theme
    case ModernBlueTheme => ModernBlue.Header(log, d)
    case ClassicMinimalTheme => ClassicMinimal.Header(log, d)
    case ProfessionalDarkTheme => ProfessionalDark.Header(log, d)
    case CreativeColorfulTheme => CreativeColorful.Header(log, d)
  }

  function FromStep(theme: Theme, log: seq<Cmd>, d: InvoiceData, wrap: Wrapper): seq<Cmd> {
    match theme
    case ModernBlueTheme => ModernBlue.FromSection(log, d, wrap)
    case ClassicMinimalTheme => ClassicMinimal.FromSection(log, d, wrap)
    case ProfessionalDarkTheme => ProfessionalDark.FromSection(log, d, wrap)
    case CreativeColorfulTheme => CreativeColorful.FromSection(log, d, wrap)
  }

  function ClientStep(theme: Theme, log: seq<Cmd>, d: InvoiceData, wrap: Wrapper): seq<Cmd> {
    match theme
    case ModernBlueTheme => ModernBlue.ClientSection(log, d, wrap)
    case ClassicMinimalTheme => ClassicMinimal.ClientSection(log, d, wrap)
    case ProfessionalDarkTheme => ProfessionalDark.ClientSection(log, d, wrap)
    case CreativeColorfulTheme => CreativeColorful.ClientSection(log, d, wrap)
  }

  function DetailsStep(theme: Theme, log: seq<Cmd>, d: InvoiceData, fmt: Fmt): seq<Cmd> {
    match theme
    case ModernBlueTheme => ModernBlue.InvoiceDetails(log, d, fmt)
    case ClassicMinimalTheme => ClassicMinimal.InvoiceDetails(log, d, fmt)
    case ProfessionalDarkTheme => ProfessionalDark.InvoiceDetails(log, d, fmt)
    case CreativeColorfulTheme => CreativeColorful.InvoiceDetails(log, d, fmt)
  }

  function TableStep(theme: Theme, log: seq<Cmd>, d: InvoiceData, fmt: Fmt, wrap: Wrapper): seq<Cmd> {
    match theme
    case ModernBlueTheme => ModernBlue.Table(log, d, fmt, wrap)
    case ClassicMinimalTheme => ClassicMinimal.Table(log, d, fmt, wrap)
    case ProfessionalDarkTheme => ProfessionalDark.Table(log, d, fmt, wrap)
    case CreativeColorfulTheme => CreativeColorful.Table(log, d, fmt, wrap)
  }

  function TotalStep(theme: Theme, log: seq<Cmd>, d: InvoiceData, fmt: Fmt): seq<Cmd> {
    match theme
    case ModernBlueTheme => ModernBlue.Total(log, d, fmt)
    case ClassicMinimalTheme => ClassicMinimal.Total(log, d, fmt)
    case ProfessionalDarkTheme => ProfessionalDark.Total(log, d, fmt)
    case CreativeColorfulTheme => CreativeColorful.Total(log, d, fmt)
  }

  function NoteStep(theme: Theme, log: seq<Cmd>, d: InvoiceData, wrap: Wrapper): seq<Cmd> {
    match theme
    case ModernBlueTheme => ModernBlue.Note(log, d, wrap)
    case ClassicMinimalTheme => ClassicMinimal.Note(log, d, wrap)
    case ProfessionalDarkTheme => ProfessionalDark.Note(log, d, wrap)
    case CreativeColorfulTheme => CreativeColorful.Note(log, d, wrap)
  }

  function FooterStep(theme: Theme, log: seq<Cmd>, d: InvoiceData, year: int): seq<Cmd> {
    match theme
    case ModernBlueTheme => ModernBlue.Footer(log, d, year)
    case ClassicMinimalTheme => ClassicMinimal.Footer(log, d, year)
    case ProfessionalDarkTheme => ProfessionalDark.Footer(log, d, year)
    case CreativeColorfulTheme => CreativeColorful.Footer(log, d, year)
  }

  /** The log after `generate`: header, from, client, details, table, total, note
      and footer, each applied once to the log the previous one left. */
  function Document(theme: Theme, log: seq<Cmd>, d: InvoiceData, fmt: Fmt, wrap: Wrapper, year: int): seq<Cmd> {
    var header := HeaderStep(theme, log, d);
    var from := FromStep(theme, header, d, wrap);
    var client := ClientStep(theme, from, d, wrap);
    var details := DetailsStep(theme, client, d, fmt);
    var table := TableStep(theme, details, d, fmt, wrap);
    var total := TotalStep(theme, table, d, fmt);
    var note := NoteStep(theme, total, d, wrap);
    FooterStep(theme, note, d, year)
  }

  /** Without a note (missing or empty) the note step adds nothing: the footer
      directly follows the total. */
  lemma NoNoteSkipsNoteStep(theme: Theme, log: seq<Cmd>, d: InvoiceData, fmt: Fmt, wrap: Wrapper, year: int)
    requires !HasNote(d)
    ensures var total := TotalStep(theme, TableStep(theme, DetailsStep(theme,
                ClientStep(theme, FromStep(theme, HeaderStep(theme, log, d), d, wrap), d, wrap), d, fmt), d, fmt, wrap), d, fmt);
      Document(theme, log, d, fmt, wrap, year) == FooterStep(theme, total, d, year)
  {
    var total := TotalStep(theme, TableStep(theme, DetailsStep(theme,
                   ClientStep(theme, FromStep(theme, HeaderStep(theme, log, d), d, wrap), d, wrap), d, fmt), d, fmt, wrap), d, fmt);
    match theme
    case ModernBlueTheme => ModernBlue.NoteLayout(total, d, wrap);
    case ClassicMinimalTheme => ClassicMinimal.NoteLayout(total, d, wrap);
    case ProfessionalDarkTheme => ProfessionalDark.NoteLayout(total, d, wrap);
    case CreativeColorfulTheme => CreativeColorful.NoteLayout(total, d, wrap);
  }

  class Template {
    const theme: Theme
    const data: InvoiceData
    const fmt: Fmt
    const pdf: Surface

    /** A new A4 portrait document in millimetres, with helvetica selected. */
    constructor (theme: Theme, data: InvoiceData, fmt: Fmt, wrap: Wrapper)
      ensures this.theme == theme && this.data == data && this.fmt == fmt
      ensures fresh(pdf) && pdf.wrap == wrap
      ensures pdf.log == [FontFace("helvetica", Normal)] && pdf.font == INITIAL_FONT
    {
      this.theme := theme;
      this.data := data;
      this.fmt := fmt;
      var surface := new Surface(wrap);
      surface.SetFont("helvetica", Normal);
      pdf := surface;
    }

    method RenderHeader()
      modifies pdf
      ensures pdf.log == HeaderStep(theme, old(pdf.log), data)
    {
      match theme
      case ModernBlueTheme => ModernBlue.RenderHeader(pdf, data);
      case ClassicMinimalTheme => ClassicMinimal.RenderHeader(pdf, data);
      case ProfessionalDarkTheme => ProfessionalDark.RenderHeader(pdf, data);
      case CreativeColorfulTheme => CreativeColorful.RenderHeader(pdf, data);
    }

    method RenderFromSection()
      modifies pdf
      ensures pdf.log == FromStep(theme, old(pdf.log), data, pdf.wrap)
    {
      match theme
      case ModernBlueTheme => ModernBlue.RenderFromSection(pdf, data);
      case ClassicMinimalTheme => ClassicMinimal.RenderFromSection(pdf, data);
      case ProfessionalDarkTheme => ProfessionalDark.RenderFromSection(pdf, data);
      case CreativeColorfulTheme => CreativeColorful.RenderFromSection(pdf, data);
    }

    method RenderClientSection()
      modifies pdf
      ensures pdf.log == ClientStep(theme, old(pdf.log), data, pdf.wrap)
    {
      match theme
      case ModernBlueTheme => ModernBlue.RenderClientSection(pdf, data);
      case ClassicMinimalTheme => ClassicMinimal.RenderClientSection(pdf, data);
      case ProfessionalDarkTheme => ProfessionalDark.RenderClientSection(pdf, data);
      case CreativeColorfulTheme => CreativeColorful.RenderClientSection(pdf, data);
    }

    method RenderInvoiceDetails()
      modifies pdf
      ensures pdf.log == DetailsStep(theme, old(pdf.log), data, fmt)
    {
      match theme
      case ModernBlueTheme => ModernBlue.RenderInvoiceDetails(pdf, data, fmt);
      case ClassicMinimalTheme => ClassicMinimal.RenderInvoiceDetails(pdf, data, fmt);
      case ProfessionalDarkTheme => ProfessionalDark.RenderInvoiceDetails(pdf, data, fmt);
      case CreativeColorfulTheme => CreativeColorful.RenderInvoiceDetails(pdf, data, fmt);
    }

    method RenderTable()
      modifies pdf
      ensures pdf.log == TableStep(theme, old(pdf.log), data, fmt, pdf.wrap)
    {
      match theme
      case ModernBlueTheme => ModernBlue.RenderTable(pdf, data, fmt);
      case ClassicMinimalTheme => ClassicMinimal.RenderTable(pdf, data, fmt);
      case ProfessionalDarkTheme => ProfessionalDark.RenderTable(pdf, data, fmt);
      case CreativeColorfulTheme => CreativeColorful.RenderTable(pdf, data, fmt);
    }

    method RenderTotal()
      modifies pdf
      ensures pdf.log == TotalStep(theme, old(pdf.log), data, fmt)
    {
      match theme
      case ModernBlueTheme => ModernBlue.RenderTotal(pdf, data, fmt);
      case ClassicMinimalTheme => ClassicMinimal.RenderTotal(pdf, data, fmt);
      case ProfessionalDarkTheme => ProfessionalDark.RenderTotal(pdf, data, fmt);
      case CreativeColorfulTheme => CreativeColorful.RenderTotal(pdf, data, fmt);
    }

    method RenderNote()
      modifies pdf
      ensures pdf.log == NoteStep(theme, old(pdf.log), data, pdf.wrap)
    {
      match theme
      case ModernBlueTheme => ModernBlue.RenderNote(pdf, data);
      case ClassicMinimalTheme => ClassicMinimal.RenderNote(pdf, data);
      case ProfessionalDarkTheme => ProfessionalDark.RenderNote(pdf, data);
      case CreativeColorfulTheme => CreativeColorful.RenderNote(pdf, data);
    }

    /** The footer's `new Date().getFullYear()` is the `year` parameter. */
    method RenderFooter(year: int)
      modifies pdf
      ensures pdf.log == FooterStep(theme, old(pdf.log), data, year)
    {
      match theme
      case ModernBlueTheme => ModernBlue.RenderFooter(pdf, data, year);
      case ClassicMinimalTheme => ClassicMinimal.RenderFooter(pdf, data, year);
      case ProfessionalDarkTheme => ProfessionalDark.RenderFooter(pdf, data, year);
      case CreativeColorfulTheme => CreativeColorful.RenderFooter(pdf, data, year);
    }

    /** `generate`: the eight steps once each, in order; the returned document is
        the command log. Only the surface changes. */
    method Generate(year: int) returns (output: seq<Cmd>)
      modifies pdf
      ensures output == pdf.log == Document(theme, old(pdf.log), data, fmt, pdf.wrap, year)
    {
      RenderHeader();
      RenderFromSection();
      RenderClientSection();
      RenderInvoiceDetails();
      RenderTable();
      RenderTotal();
      RenderNote();
      RenderFooter(year);
      output := pdf.log;
    }
  }
}
