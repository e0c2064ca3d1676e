# InulTax invoice core in Dafny

InulTax is an invoice-management web application. This project models the
parts of it that make decisions, and proves properties of those models:

- **PDF invoice templates.** A base template drives eight drawing steps over a
  jsPDF surface: header, "from" party, client party, invoice details, item
  table, total, optional note and footer. Four themes implement the steps:
  Modern Blue, Classic Minimal, Professional Dark and Creative Colorful. The
  theme is picked by the template factory. The drawing surface is a class whose
  log records every command it is given, so a rendered document is the
  sequence of commands the theme issued. Each theme has specification
  functions for the commands of each step, and render methods that are proved
  to issue exactly those commands. Layout lemmas then state where things land:
  row offsets, the clearance between table and total, where the note and
  footer go, and which colours alternate.
- **Email security.** Address validation, which implements the WHATWG HTML
  "valid e-mail address" grammar (section 4.10.5.1.5 of the HTML Living
  Standard) with a 254-character limit. Also the disposable-domain blocklist,
  normalisation, masking, the secure token (hex of 32 random bytes), token
  expiry, and the in-memory per-address send log (three sends per hour) with
  its cleanup sweep.
- **Middleware.** The per-key login rate limiter: five requests per
  15-minute window, keyed by email or client IP. Also its expiry sweep and the
  request handler that answers 429 on the sign-in and callback paths.
- **Form schemas.** The onboarding and invoice schemas, as issue lists,
  including the status default and the currency enumeration.
- **Dashboard.** The summary cards' grouping of invoice totals by currency,
  their counts and the USD/IDR card body. The revenue graph's per-day,
  per-currency buckets over the last 30 days.
- **Mail.** The `{{key}}` template substitution; the invoice-created,
  invoice-updated and payment-reminder mails.
- **Auth.** The required-environment check, the magic-link sender (validate,
  then rate-limit, then send), and the `signIn`, `session` and `redirect`
  callbacks.

The four themes do not share one layout:

- Classic Minimal spaces rows 5 units apart. The other three themes use 4.
- Each theme places its fields at its own coordinates.
- Only Classic Minimal shades even rows and leaves odd rows bare.

The base table geometry (`BaseTemplate.TableGeometry`) therefore takes the
start and the gap per theme.

The invoice schema requires at least one item (app/utils/zodSchemas.ts:32).
Nothing checks that the total is the sum of the items. The renderer relies on
neither, so the model accepts any item list and draws the total it is given.

## Model

| member | source | states |
|---|---|---|
| BaseTemplate.ItemHeight | app/utils/pdf-templates/base-template.ts:82-86 | a row height is at least the 8-unit minimum and at least 4 units per wrapped line, and equals one of the two |
| BaseTemplate.ItemHeightAtLeastMin | app/utils/pdf-templates/base-template.ts:82-86 | `calculateItemHeight` never returns less than 8, whatever the description and width |
| BaseTemplate.ItemHeightOfFewLines | app/utils/pdf-templates/base-template.ts:82-86 | a description of at most two lines gets exactly the minimum height 8 |
| BaseTemplate.ItemHeightOfManyLines | app/utils/pdf-templates/base-template.ts:82-86 | from two lines on, the height is 4 units per line |
| BaseTemplate.ItemHeightMonotone | app/utils/pdf-templates/base-template.ts:82-86 | more lines never give a smaller row |
| BaseTemplate.RowTopStrictlyIncreasing | app/utils/pdf-templates/modern-blue-template.ts:117-150 | with a non-negative gap, each later row starts at least 8 units below an earlier one, so rows never overlap |
| BaseTemplate.TableEndBound | app/utils/pdf-templates/modern-blue-template.ts:117-150 | if every row wraps to at most `maxLines` lines, the table ends no lower than start + rows × (4·maxLines + gap) |
| BaseTemplate.TableEndOfShortRows | app/utils/pdf-templates/modern-blue-template.ts:117-150 | if every row wraps to at most two lines, the table ends exactly at start + rows × (8 + gap) |
| BaseTemplate.DrawRowsPrefix | app/utils/pdf-templates/modern-blue-template.ts:117-150 | the commands for the first i rows are a prefix of those for the first k rows when i ≤ k |
| BaseTemplate.DrawRowsLength | app/utils/pdf-templates/modern-blue-template.ts:117-150 | k rows of a renderer that issues `len` commands per row add exactly len·k commands |
| Surface.Surface.constructor | app/utils/pdf-templates/base-template.ts:32-40 | a new surface has an empty log, the default font and the given wrapper |
| Surface.Surface.DrawColumn | app/utils/pdf-templates/modern-blue-template.ts:43-51 | drawing a column of lines appends one text command per line, `dy` apart, and leaves the font alone |
| Surface.Surface.SetFontSize | app/utils/pdf-templates/modern-blue-template.ts:11 | records the size change and keeps the style |
| Surface.Surface.SetFont | app/utils/pdf-templates/modern-blue-template.ts:12 | records the face change and keeps the size |
| PdfTemplate.Template.constructor | app/utils/pdf-templates/base-template.ts:32-40 | a new template owns a fresh surface whose only command selects helvetica normal |
| PdfTemplate.Template.Generate | app/utils/pdf-templates/base-template.ts:53-64 | the document is the eight steps run in order on the template's own surface, and the output is the surface's log |
| PdfTemplate.Template.RenderHeader | app/utils/pdf-templates/base-template.ts:54 | header drawn by the template's theme |
| PdfTemplate.Template.RenderFromSection | app/utils/pdf-templates/base-template.ts:55 | "from" party drawn by the template's theme |
| PdfTemplate.Template.RenderClientSection | app/utils/pdf-templates/base-template.ts:56 | client party drawn by the template's theme |
| PdfTemplate.Template.RenderInvoiceDetails | app/utils/pdf-templates/base-template.ts:57 | invoice details drawn by the template's theme |
| PdfTemplate.Template.RenderTable | app/utils/pdf-templates/base-template.ts:58 | item table drawn by the template's theme |
| PdfTemplate.Template.RenderTotal | app/utils/pdf-templates/base-template.ts:59 | total drawn by the template's theme |
| PdfTemplate.Template.RenderNote | app/utils/pdf-templates/base-template.ts:60 | note drawn by the template's theme |
| PdfTemplate.Template.RenderFooter | app/utils/pdf-templates/base-template.ts:61 | footer drawn by the template's theme |
| PdfTemplate.NoNoteSkipsNoteStep | app/utils/pdf-templates/base-template.ts:53-64 | for an invoice without a note, the document is the other seven steps alone, for every theme |
| TemplateFactory.ThemeOf | app/utils/pdf-templates/template-factory.ts:79-91 | the chosen theme's identifier is the requested one, or the theme is Modern Blue |
| TemplateFactory.ThemeOfTypeId | app/utils/pdf-templates/template-factory.ts:80-87 | each theme's identifier selects that theme |
| TemplateFactory.UnknownTypeFallsBack | app/utils/pdf-templates/template-factory.ts:88-90 | an identifier naming no theme selects Modern Blue |
| TemplateFactory.CreateTemplate | app/utils/pdf-templates/template-factory.ts:75-92 | returns a fresh template of the selected theme over the given data, with a fresh surface |
| TemplateFactory.Find | app/utils/pdf-templates/template-factory.ts:94-98 | the lookup finds nothing exactly when no entry has the identifier, and what it finds is a catalogue entry |
| TemplateFactory.GetAllTemplates | app/utils/pdf-templates/template-factory.ts:100-102 | the catalogue lists four templates with four features each, and each entry is exactly what `getTemplateInfo` returns for its identifier |
| TemplateFactory.CatalogueOrder | app/utils/pdf-templates/template-factory.ts:21-72 | the catalogue lists the four themes in factory order, with distinct identifiers |
| TemplateFactory.InfoForEveryTheme | app/utils/pdf-templates/template-factory.ts:94-98 | every theme's identifier has catalogue information, and that entry selects the same theme |
| TemplateFactory.InfoRoundTrip | app/utils/pdf-templates/template-factory.ts:94-98 | looking up a catalogue entry's identifier returns that entry |
| TemplateFactory.UnknownTypeHasNoInfo | app/utils/pdf-templates/template-factory.ts:94-98 | an unknown identifier has no information, although it still renders as Modern Blue |
| ModernBlue.RenderHeader | app/utils/pdf-templates/modern-blue-template.ts:4-25 | appends the header commands and leaves the badge font selected |
| ModernBlue.HeaderLayout | app/utils/pdf-templates/modern-blue-template.ts:4-25 | 13 commands: a 210×35 band at the top, the invoice name at (20, 22) and the centred "INVOICE" badge text at (170, 13) |
| ModernBlue.RenderParty | app/utils/pdf-templates/modern-blue-template.ts:27-52 | appends one party box and its lines, and leaves the party font selected |
| ModernBlue.RenderFromSection | app/utils/pdf-templates/modern-blue-template.ts:27-52 | the "DARI" box at the left, from the sender's fields |
| ModernBlue.RenderClientSection | app/utils/pdf-templates/modern-blue-template.ts:54-82 | the "KEPADA" box at the right, from the client's fields |
| ModernBlue.PartyLayout | app/utils/pdf-templates/modern-blue-template.ts:41-51 | party lines are name, email, then the address wrapped at 75 in 10pt; line i is at y 58 + 4i |
| ModernBlue.RenderInvoiceDetails | app/utils/pdf-templates/modern-blue-template.ts:84-95 | appends the three detail lines |
| ModernBlue.InvoiceDetailsLayout | app/utils/pdf-templates/modern-blue-template.ts:92-94 | number as "#n", formatted date and due days, at x 115 and y 26, 30 and 34 |
| ModernBlue.RenderTableHead | app/utils/pdf-templates/modern-blue-template.ts:97-115 | appends the header bar and its four column titles |
| ModernBlue.RenderRow | app/utils/pdf-templates/modern-blue-template.ts:117-150 | appends one row and returns the row's height |
| ModernBlue.RenderRows | app/utils/pdf-templates/modern-blue-template.ts:117-150 | the loop appends every row in order and returns the y where the table ends |
| ModernBlue.RenderTable | app/utils/pdf-templates/modern-blue-template.ts:97-151 | head, then all the rows |
| ModernBlue.RowShape | app/utils/pdf-templates/modern-blue-template.ts:117-150 | 9 commands per row: alternating fill (red channel 248 on even rows, 255 on odd), a background from y−3 to y+h+3 across 15..195, the wrapped description at (20, y+2), the amount at (165, y+2) |
| ModernBlue.RowRenderAppends | app/utils/pdf-templates/modern-blue-template.ts:117-150 | every row only appends, and appends exactly 9 commands |
| ModernBlue.RowOffsets | app/utils/pdf-templates/modern-blue-template.ts:117-150 | the first row is at 105, each next row is the last row's height + 4 lower, and rows never overlap |
| ModernBlue.RenderTotal | app/utils/pdf-templates/modern-blue-template.ts:153-172 | appends the total box |
| ModernBlue.TotalFromCountOnly | app/utils/pdf-templates/modern-blue-template.ts:153-172 | the total sits at 115 + 20·items regardless of the row heights, and shows "TOTAL (cur): amount" at (125, y+9) |
| ModernBlue.TableClearsTotal | app/utils/pdf-templates/modern-blue-template.ts:149-155 | when no row wraps to more than 4 lines, the table ends above the total box |
| ModernBlue.RenderNote | app/utils/pdf-templates/modern-blue-template.ts:174-199 | appends the note box, or nothing when there is no note |
| ModernBlue.NoteLayout | app/utils/pdf-templates/modern-blue-template.ts:174-199 | no note, no commands; otherwise the box is 25 below the total, and wrapped line i is at noteY + 13 + 4i |
| ModernBlue.RenderFooter | app/utils/pdf-templates/modern-blue-template.ts:201-218 | appends the footer |
| ModernBlue.FooterFixed | app/utils/pdf-templates/modern-blue-template.ts:201-218 | the rule at y 280, "Dibuat dengan InulTax - year" at (20, 292) and the sender email at (120, 288), whatever the invoice holds |
| ClassicMinimal.RenderHeader | app/utils/pdf-templates/classic-minimal-template.ts:4-20 | appends the header |
| ClassicMinimal.HeaderLayout | app/utils/pdf-templates/classic-minimal-template.ts:4-20 | the name and "INVOICE" share baseline 25 above the rule at y 30 |
| ClassicMinimal.RenderParty | app/utils/pdf-templates/classic-minimal-template.ts:22-40 | appends one party heading and its lines |
| ClassicMinimal.RenderFromSection | app/utils/pdf-templates/classic-minimal-template.ts:22-40 | the "FROM:" column at x 20 |
| ClassicMinimal.RenderClientSection | app/utils/pdf-templates/classic-minimal-template.ts:42-60 | the "TO:" column at x 110 |
| ClassicMinimal.PartyLayout | app/utils/pdf-templates/classic-minimal-template.ts:31-39 | address wrapped at 80; the heading at y 45; line i at y 50 + 4i |
| ClassicMinimal.RenderInvoiceDetails | app/utils/pdf-templates/classic-minimal-template.ts:62-78 | appends the label/value pairs |
| ClassicMinimal.InvoiceDetailsLayout | app/utils/pdf-templates/classic-minimal-template.ts:63-77 | labels at x 20, values at x 60, pair k at y 80 + 5k; number as "#n", due date as "n days" |
| ClassicMinimal.RenderTableHead | app/utils/pdf-templates/classic-minimal-template.ts:80-98 | appends the column titles and their rules |
| ClassicMinimal.RenderRow | app/utils/pdf-templates/classic-minimal-template.ts:100-127 | appends one row and returns its height |
| ClassicMinimal.RenderRows | app/utils/pdf-templates/classic-minimal-template.ts:98-127 | appends every row in order and returns the table's end |
| ClassicMinimal.RenderTable | app/utils/pdf-templates/classic-minimal-template.ts:80-132 | head, rows, closing rule |
| ClassicMinimal.RowShape | app/utils/pdf-templates/classic-minimal-template.ts:100-127 | even rows get a (250,250,250) shade from y−2 to y+h+2; odd rows have no fill and no rectangle at all |
| ClassicMinimal.RowOffsets | app/utils/pdf-templates/classic-minimal-template.ts:98-131 | rows from 125, each height + 5 apart, never overlapping; the last command is the rule at the table's end |
| ClassicMinimal.RenderTotal | app/utils/pdf-templates/classic-minimal-template.ts:134-149 | appends the total between two rules |
| ClassicMinimal.TotalFromCountOnly | app/utils/pdf-templates/classic-minimal-template.ts:134-149 | the total is at 135 + 15·items, between rules 10 apart, with the amount at (165, y+5) |
| ClassicMinimal.TableClearsTotal | app/utils/pdf-templates/classic-minimal-template.ts:127-140 | with rows of at most two lines the table ends at 125 + 13·items, above the total's upper rule |
| ClassicMinimal.RenderNote | app/utils/pdf-templates/classic-minimal-template.ts:151-169 | appends the notes, or nothing |
| ClassicMinimal.NoteLayout | app/utils/pdf-templates/classic-minimal-template.ts:151-169 | without a note, nothing; otherwise "Notes:" 20 below the total and lines wrapped at 170, line i at noteY + 5 + 4i |
| ClassicMinimal.RenderFooter | app/utils/pdf-templates/classic-minimal-template.ts:171-190 | appends the footer |
| ClassicMinimal.FooterFixed | app/utils/pdf-templates/classic-minimal-template.ts:171-190 | the rule at y 270, the "Generated by" line at (20, 282), the contact at (120, 278) |
| ClassicMinimal.RowRenderExtends | app/utils/pdf-templates/classic-minimal-template.ts:100-127 | drawing a row only appends to the log |
| ProfessionalDark.RenderHeader | app/utils/pdf-templates/professional-dark-template.ts:4-26 | appends the header |
| ProfessionalDark.HeaderLayout | app/utils/pdf-templates/professional-dark-template.ts:4-26 | a full-width dark band 0..40; the red accent strip ends at the band's bottom; the "INVOICE" anchor lies inside its badge |
| ProfessionalDark.RenderParty | app/utils/pdf-templates/professional-dark-template.ts:28-57 | appends one party box |
| ProfessionalDark.RenderFromSection | app/utils/pdf-templates/professional-dark-template.ts:28-57 | the "BILL FROM" box at the left |
| ProfessionalDark.RenderClientSection | app/utils/pdf-templates/professional-dark-template.ts:59-91 | the "BILL TO" box at the right |
| ProfessionalDark.PartyLayout | app/utils/pdf-templates/professional-dark-template.ts:28-57 | an 85×35 filled, stroked box at y 55; address wrapped at 75 in 9pt; line i at y 68 + 4i |
| ProfessionalDark.RenderInvoiceDetails | app/utils/pdf-templates/professional-dark-template.ts:93-114 | appends the four detail columns |
| ProfessionalDark.InvoiceDetailsLayout | app/utils/pdf-templates/professional-dark-template.ts:103-113 | column k's label at (20 + 50k, 108) and its value 5 below |
| ProfessionalDark.RenderTableHead | app/utils/pdf-templates/professional-dark-template.ts:116-133 | appends the dark header bar |
| ProfessionalDark.RenderRowBackground | app/utils/pdf-templates/professional-dark-template.ts:137-158 | appends the row's fill, border and separator |
| ProfessionalDark.RenderRowCells | app/utils/pdf-templates/professional-dark-template.ts:160-172 | appends the row's four cells |
| ProfessionalDark.RenderRow | app/utils/pdf-templates/professional-dark-template.ts:135-174 | background then cells; returns the row height |
| ProfessionalDark.RenderRows | app/utils/pdf-templates/professional-dark-template.ts:133-174 | appends every row in order and returns the table's end |
| ProfessionalDark.RenderTableFoot | app/utils/pdf-templates/professional-dark-template.ts:177-179 | appends the closing rule |
| ProfessionalDark.RenderTable | app/utils/pdf-templates/professional-dark-template.ts:116-180 | head, rows, bottom border |
| ProfessionalDark.RowShape | app/utils/pdf-templates/professional-dark-template.ts:135-174 | 12 commands: alternating fill, the y−3..y+h+3 background, the separator along its top edge, description and amount at y+2 |
| ProfessionalDark.RowFillAlternates | app/utils/pdf-templates/professional-dark-template.ts:137-141 | adjacent rows differ in fill, and rows two apart share it |
| ProfessionalDark.RowOffsets | app/utils/pdf-templates/professional-dark-template.ts:133-179 | rows from 145, each height + 4 apart; the table ends with the bottom rule at the end offset |
| ProfessionalDark.RenderTotal | app/utils/pdf-templates/professional-dark-template.ts:182-204 | appends the total box |
| ProfessionalDark.TotalFromCountOnly | app/utils/pdf-templates/professional-dark-template.ts:182-204 | the total is at 155 + 20·items; the amount at (115, y+13) and the "(currency)" tag share a baseline inside the box |
| ProfessionalDark.TableClearsTotal | app/utils/pdf-templates/professional-dark-template.ts:173-184 | with rows of at most four lines, the table ends at least 10 above the total |
| ProfessionalDark.RenderNote | app/utils/pdf-templates/professional-dark-template.ts:206-232 | appends the note box, or nothing |
| ProfessionalDark.NoteLayout | app/utils/pdf-templates/professional-dark-template.ts:206-232 | without a note, nothing; otherwise the box is 12 below the 18-high total box, with "NOTES" and lines wrapped at 165 in bold 10 |
| ProfessionalDark.RenderFooter | app/utils/pdf-templates/professional-dark-template.ts:234-257 | appends the footer |
| ProfessionalDark.FooterFixed | app/utils/pdf-templates/professional-dark-template.ts:234-257 | the band spans the page width over y 270..295, with the contact at (120, 280) |
| ProfessionalDark.RowRenderExtends | app/utils/pdf-templates/professional-dark-template.ts:135-174 | drawing a row only appends to the log |
| CreativeColorful.RenderHeader | app/utils/pdf-templates/creative-colorful-template.ts:4-26 | appends the header |
| CreativeColorful.HeaderLayout | app/utils/pdf-templates/creative-colorful-template.ts:4-26 | the three bands tile y 0..40 without gaps; "INVOICE" is centred on its badge to within half a unit; the name is at (20, 25) |
| CreativeColorful.RenderParty | app/utils/pdf-templates/creative-colorful-template.ts:28-60 | appends one party box |
| CreativeColorful.RenderFromSection | app/utils/pdf-templates/creative-colorful-template.ts:28-60 | the light-pink "FROM" box at the left |
| CreativeColorful.RenderClientSection | app/utils/pdf-templates/creative-colorful-template.ts:62-97 | the light-blue "TO" box at the right |
| CreativeColorful.PartyLayout | app/utils/pdf-templates/creative-colorful-template.ts:28-60 | the box is filled, then outlined on the same rectangle; address wrapped at 75 in 9pt; line i at 68 + 4i |
| CreativeColorful.RenderDetailBox | app/utils/pdf-templates/creative-colorful-template.ts:99-132 | appends one coloured detail box |
| CreativeColorful.RenderDetailTexts | app/utils/pdf-templates/creative-colorful-template.ts:99-132 | appends one box's label and value |
| CreativeColorful.RenderInvoiceDetails | app/utils/pdf-templates/creative-colorful-template.ts:99-132 | appends the four boxes |
| CreativeColorful.InvoiceDetailsLayout | app/utils/pdf-templates/creative-colorful-template.ts:99-132 | four boxes 5 apart, each holding its label and value strictly inside |
| CreativeColorful.RenderTableHead | app/utils/pdf-templates/creative-colorful-template.ts:134-157 | appends the four coloured header cells |
| CreativeColorful.TableHeadTiles | app/utils/pdf-templates/creative-colorful-template.ts:139-145 | the header cells tile x 15..195 at y 125, 12 high |
| CreativeColorful.RenderRowBackground | app/utils/pdf-templates/creative-colorful-template.ts:169-187 | appends the row's fill and border |
| CreativeColorful.RenderRowCells | app/utils/pdf-templates/creative-colorful-template.ts:189-202 | appends the row's cells |
| CreativeColorful.RenderRow | app/utils/pdf-templates/creative-colorful-template.ts:168-205 | background then cells; returns the height |
| CreativeColorful.RenderRows | app/utils/pdf-templates/creative-colorful-template.ts:157-205 | appends every row in order and returns the table's end |
| CreativeColorful.RenderTable | app/utils/pdf-templates/creative-colorful-template.ts:134-206 | head, then rows |
| CreativeColorful.RowShape | app/utils/pdf-templates/creative-colorful-template.ts:168-205 | 14 commands: fill from the 5-colour palette by index, the background outlined on the same rectangle, the amount in deep pink at (165, y+2) |
| CreativeColorful.RowFillCycle | app/utils/pdf-templates/creative-colorful-template.ts:160-170 | the palette repeats every 5 rows, and any 5 consecutive rows have 5 different fills |
| CreativeColorful.RowOffsets | app/utils/pdf-templates/creative-colorful-template.ts:157-204 | rows from 140, each height + 4 apart, never overlapping |
| CreativeColorful.RenderTotal | app/utils/pdf-templates/creative-colorful-template.ts:208-228 | appends the total bar |
| CreativeColorful.TotalFromCountOnly | app/utils/pdf-templates/creative-colorful-template.ts:208-228 | the bar is at 150 + 20·items; the gold edges line its top and bottom; "GRAND TOTAL: amount" lies between them |
| CreativeColorful.TableClearsTotal | app/utils/pdf-templates/creative-colorful-template.ts:204-209 | with rows of at most four lines, the table ends at least 10 above the bar |
| CreativeColorful.RenderNoteBox | app/utils/pdf-templates/creative-colorful-template.ts:236-248 | appends the note box and its heading |
| CreativeColorful.RenderNote | app/utils/pdf-templates/creative-colorful-template.ts:230-259 | appends the note, or nothing |
| CreativeColorful.NoteLayout | app/utils/pdf-templates/creative-colorful-template.ts:230-259 | without a note, nothing; otherwise the box is 10 below the 15-high bar, with "SPECIAL NOTES" and lines wrapped at 165 in bold 11 |
| CreativeColorful.RenderStrips | app/utils/pdf-templates/creative-colorful-template.ts:265-278 | the loop appends the seven rainbow strips |
| CreativeColorful.StripsLayout | app/utils/pdf-templates/creative-colorful-template.ts:265-278 | strip j has rainbow colour j and sits at (15 + 25j, 270), 25×3 |
| CreativeColorful.RainbowTiles | app/utils/pdf-templates/creative-colorful-template.ts:265-278 | the first k strips tile x 15..15 + 25k without gaps or overlap, and all seven end at x 190 |
| CreativeColorful.RenderFooterText | app/utils/pdf-templates/creative-colorful-template.ts:280-292 | appends the footer's texts |
| CreativeColorful.RenderFooter | app/utils/pdf-templates/creative-colorful-template.ts:261-293 | strips, then texts |
| CreativeColorful.FooterFixed | app/utils/pdf-templates/creative-colorful-template.ts:280-292 | the thank-you line, "Created with love by InulTax - year" and the sender email at their fixed places |
| CreativeColorful.RowRenderExtends | app/utils/pdf-templates/creative-colorful-template.ts:168-205 | drawing a row only appends to the log |
| Strings.ToLower | app/utils/email-security.ts:42-44 | same length, each character lowered |
| Strings.ToLowerIdempotent | app/utils/email-security.ts:42-44 | lowering twice equals lowering once |
| Strings.Trim | app/utils/email-security.ts:42-44 | the result is the input with only trimmable characters cut off its two ends (TrimmedFrom), and it neither starts nor ends with a trimmable character |
| Strings.CutToNothing | app/utils/email-security.ts:42-44 | the trim is empty only when every character of the input is trimmable |
| Strings.TrimOfTrimmed | app/utils/email-security.ts:42-44 | trimming a trimmed string changes nothing |
| Strings.SplitOn | app/utils/email-security.ts:49-55 | at least one piece, no piece holds the separator, a single piece exactly when the separator is absent |
| Strings.JoinSplit | app/utils/email-security.ts:49-55 | joining the pieces with the separator gives back the string |
| Strings.NatToStringRoundTrip | app/utils/pdf-templates/modern-blue-template.ts:92-94 | reading back a number's decimal digits gives the number |
| Strings.NatToStringInjective | app/utils/pdf-templates/modern-blue-template.ts:92-94 | different numbers print differently |
| Common.Distinct | app/components/InvoiceGraph.tsx:40-42 | first occurrences, in order: the same members, no repeats, never longer |
| EmailSecurity.IsValidEmailMatchesGrammar | app/utils/email-security.ts:17-29 | the check accepts exactly the non-empty addresses of at most 254 characters whose lowercase form matches the grammar |
| EmailSecurity.DomainGrammarIsSplit | app/utils/email-security.ts:17-18 | the label-by-label domain check is the domain grammar |
| EmailSecurity.EmailGrammarIsSplit | app/utils/email-security.ts:17-18 | an address matches the grammar exactly when it splits at its first "@" into a local part and a domain |
| EmailSecurity.ValidEmailHasOneAt | app/utils/email-security.ts:23-29 | a valid address contains an "@" |
| EmailSecurity.DomainGrammarHasNoAt | app/utils/email-security.ts:17-18 | a domain holds no "@" |
| EmailSecurity.BlockedIsExactDomainMatch | app/utils/email-security.ts:34-37 | an address is blocked exactly when its lowercased domain is one of the listed domains; subdomains are not |
| EmailSecurity.NoAtIsNotBlocked | app/utils/email-security.ts:34-37 | a string without "@" has no domain and is never blocked |
| EmailSecurity.NormalizeEmail | app/utils/email-security.ts:42-44 | the result is the input trimmed (only trimmable characters cut off its ends), then lowercased; it is lowercase and has no whitespace at either end |
| EmailSecurity.NormalizeToNothing | app/utils/email-security.ts:42-44 | an address normalises to the empty string only when it is all whitespace |
| EmailSecurity.NormalizeIdempotent | app/utils/email-security.ts:42-44 | normalising twice equals normalising once |
| EmailSecurity.MaskShowsDomainAndPrefix | app/utils/email-security.ts:49-55 | the mask keeps the first character of a local part of one or two characters, the first two of a longer one, then "***@", then the domain |
| EmailSecurity.MaskHidesLocalPart | app/utils/email-security.ts:49-55 | at most two characters of the local part survive the mask |
| EmailSecurity.ValidateEmailForAuth | app/utils/email-security.ts:60-81 | valid iff no error, iff the normalised address is well formed and not blocked; the format error exactly when malformed, the domain error exactly when well formed and blocked |
| EmailSecurity.ValidateIgnoresNormalization | app/utils/email-security.ts:60-81 | validating a normalised address gives the same verdict as validating the original |
| EmailSecurity.AcceptedDomainIsNotBlocked | app/utils/email-security.ts:60-81 | an accepted address has an "@" whose domain is off the blocklist |
| EmailSecurity.PadStart | app/utils/email-security.ts:89-91 | pads to the width on the left and keeps the string as its suffix |
| EmailSecurity.HexByte | app/utils/email-security.ts:89-91 | a byte becomes two hex digits, high nibble first |
| EmailSecurity.HexEncode | app/utils/email-security.ts:86-92 | two hex digits per byte |
| EmailSecurity.HexDecodeEncode | app/utils/email-security.ts:86-92 | decoding the hex of a byte string gives back the bytes |
| EmailSecurity.GenerateSecureToken | app/utils/email-security.ts:86-92 | the token is 64 hex digits that decode to the 32 random bytes |
| EmailSecurity.TokenValidityWindow | app/utils/email-security.ts:97-106 | a token is valid exactly while less than the expiry hours have passed (24 hours by default), and once invalid it stays invalid |
| EmailSecurity.Recent | app/utils/email-security.ts:119-121 | keeps exactly the time stamps newer than the cutoff |
| EmailSecurity.RecentTwice | app/utils/email-security.ts:136-150 | filtering at an earlier cutoff and then at a later one equals filtering at the later one |
| EmailSecurity.AfterSend | app/utils/email-security.ts:113-131 | a refused send leaves the log as it was; an allowed one records `now` after the last hour's sends; other addresses are untouched |
| EmailSecurity.CleanLog | app/utils/email-security.ts:136-150 | every surviving address keeps only its last hour, and an address is dropped exactly when nothing of that hour remains |
| EmailSecurity.CleanLogIdempotent | app/utils/email-security.ts:136-150 | sweeping twice at the same time equals sweeping once |
| EmailSecurity.CleanupKeepsDecisions | app/utils/email-security.ts:136-150 | a sweep never changes whether a later send is allowed |
| EmailSecurity.SendsPerHourBounded | app/utils/email-security.ts:113-131 | within any one hour at most `maxPerHour` sends to an address are allowed, whatever the log held before |
| EmailSecurity.EmailSendLog.constructor | app/utils/email-security.ts:111 | the log starts empty |
| EmailSecurity.EmailSendLog.CanSendEmail | app/utils/email-security.ts:113-131 | answers `SendAllowed` on the old log and leaves the log as `AfterSend` |
| EmailSecurity.EmailSendLog.CleanupEmailLogs | app/utils/email-security.ts:136-150 | the loop leaves the log as the sweep one hour back from `now` |
| Middleware.GetRateLimitKey | middleware.ts:21-23 | "email:" plus a non-empty email, otherwise "ip:" plus the client IP |
| Middleware.RateLimitKeysSeparate | middleware.ts:21-23 | equal keys come from the same email, or both from no email and the same IP; email and IP keys never collide |
| Middleware.AfterCheck | middleware.ts:25-46 | a new or expired key restarts at count 1 until now + 15 minutes; a full window changes nothing; otherwise the count goes up by one; other keys are untouched |
| Middleware.AfterCheckKeepsCounts | middleware.ts:25-46 | every count stays between 1 and 5 |
| Middleware.Unexpired | middleware.ts:48-55 | keeps exactly the records whose window has not ended |
| Middleware.SweepKeepsDecisions | middleware.ts:48-55 | an earlier sweep never changes whether a key is limited, nor its next record |
| Middleware.WindowBound | middleware.ts:25-46 | within one 15-minute window that starts fresh, at most 5 requests for a key pass |
| Middleware.OpenWindowBound | middleware.ts:34-45 | while a window is open, at most 5 − count more requests pass |
| Middleware.ClientIp | middleware.ts:71-74 | x-forwarded-for, else x-real-ip, else "unknown"; never empty |
| Middleware.RetryAfterIsOneWindow | middleware.ts:79-95 | the 429 answer's Retry-After is exactly the 15-minute window |
| Middleware.RateLimiter.constructor | middleware.ts:11-13 | an empty table |
| Middleware.RateLimiter.IsRateLimited | middleware.ts:25-46 | answers `Limited` on the old table and leaves the table as `AfterCheck`; counts stay in range |
| Middleware.RateLimiter.CleanupExpiredEntries | middleware.ts:48-55 | the loop leaves exactly the unexpired records |
| Middleware.RateLimiter.HandleRequest | middleware.ts:57-102 | an optional sweep first; non-auth paths pass untouched; auth paths answer 429 exactly when the request's key is limited, and the table is updated by the check |
| ZodSchemas.Rule | app/utils/zodSchemas.ts:3-33 | a rule yields one issue at its path exactly when it fails |
| ZodSchemas.ParseOnboarding | app/utils/zodSchemas.ts:3-7 | success exactly when all three fields are valid, returning the input; a failure lists the issues of the failed rules in field order (first name, last name, address), each with its message, and each field's issue appears exactly when that field is too short |
| ZodSchemas.ItemIssues | app/utils/zodSchemas.ts:9-13 | no issues exactly when the item is valid, and every issue lies under the item's path |
| ZodSchemas.ItemsIssuesEmpty | app/utils/zodSchemas.ts:32 | the item list has no issues exactly when every item is valid |
| ZodSchemas.InvoiceIssuesEmpty | app/utils/zodSchemas.ts:15-33 | the invoice has no issues exactly when it is valid |
| ZodSchemas.ParseInvoice | app/utils/zodSchemas.ts:15-33 | success exactly when valid; a failure carries all the issues; success returns every submitted field unchanged, except that the status is defaulted to PENDING and the currency is decoded |
| ZodSchemas.MissingStatusDefaultsToPending | app/utils/zodSchemas.ts:18 | a valid invoice without a status parses as PENDING |
| ZodSchemas.CurrencyIssueMessage | app/utils/zodSchemas.ts:27-29 | a currency other than USD or IDR fails with the schema's own message at "currency" |
| ZodSchemas.EmptyItemsRejected | app/utils/zodSchemas.ts:32 | an empty item list always fails, with an issue at "items" |
| ZodSchemas.NoteIsOptional | app/utils/zodSchemas.ts:31 | the note never decides whether an invoice parses |
| Sums.PartitionSum | app/components/DashboardBlocks.tsx:46-54 | summing the groups of distinct keys that cover every element gives the total of all amounts |
| Sums.SumOverSnoc | app/components/DashboardBlocks.tsx:46-54 | one more element adds its amount to exactly one distinct key's group |
| DashboardBlocks.CurrencyList | app/components/DashboardBlocks.tsx:46-54 | the currency column, position by position |
| DashboardBlocks.GroupFoldGroups | app/components/DashboardBlocks.tsx:46-54 | the reduce keys every present currency in first-appearance order, each holding the sum of that currency's totals |
| DashboardBlocks.GroupByCurrency | app/components/DashboardBlocks.tsx:46-54 | the loop computes the reduce; a currency is a key exactly when an invoice has it |
| DashboardBlocks.GroupsKeepTotal | app/components/DashboardBlocks.tsx:46-54 | the grouped values add up to the total of all invoices, and no invoices give an empty object |
| DashboardBlocks.GetData | app/components/DashboardBlocks.tsx:9-65 | all three lists grouped, and each count is its list's length |
| DashboardBlocks.CurrencyTotals | app/components/DashboardBlocks.tsx:79-95 | shows exactly the USD and IDR entries, with their values, in the key order of the totals object, and nothing else |
| DashboardBlocks.CardShowsGroupedTotals | app/components/DashboardBlocks.tsx:79-95 | over grouped totals the card lists a currency exactly when it is USD or IDR and present, with its grouped sum |
| InvoiceGraph.UsedCurrencies | app/components/InvoiceGraph.tsx:40-42 | the distinct currencies, in first-use order |
| InvoiceGraph.UsedCurrenciesAreUsed | app/components/InvoiceGraph.tsx:40-42 | a currency is listed exactly when some invoice uses it |
| InvoiceGraph.ZeroFoldIsZero | app/components/InvoiceGraph.tsx:48-55 | every used currency starts at 0 |
| InvoiceGraph.ZeroAmounts | app/components/InvoiceGraph.tsx:48-55 | the inner reduce as a loop |
| InvoiceGraph.InitFoldIsZero | app/components/InvoiceGraph.tsx:48-55 | every day of the period gets a zero bucket, in day order |
| InvoiceGraph.InitDailyAmounts | app/components/InvoiceGraph.tsx:48-55 | the outer reduce as a loop |
| InvoiceGraph.AddPaid | app/components/InvoiceGraph.tsx:58-62 | an invoice whose day has no bucket makes the step fail; otherwise the buckets keep their shape |
| InvoiceGraph.AccFold | app/components/InvoiceGraph.tsx:58-62 | the loop fails exactly when some invoice's day is outside the period |
| InvoiceGraph.AccFoldStaysFailed | app/components/InvoiceGraph.tsx:58-62 | once the loop has failed, later invoices do not revive it |
| InvoiceGraph.Accumulate | app/components/InvoiceGraph.tsx:58-62 | the `forEach` as a loop, equal to the fold |
| InvoiceGraph.AccFoldBuckets | app/components/InvoiceGraph.tsx:48-62 | after the loop, each day's currency holds the sum of that day's invoices in that currency |
| InvoiceGraph.Rows | app/components/InvoiceGraph.tsx:65-71 | one chart row per day, in order |
| InvoiceGraph.GetData | app/components/InvoiceGraph.tsx:15-72 | fails exactly when an invoice's day is outside the period; otherwise every cell is its day and currency's sum |
| InvoiceGraph.ChartKeysDistinct | app/components/InvoiceGraph.tsx:65-71 | each day-currency cell appears once |
| InvoiceGraph.GraphKeepsTotal | app/components/InvoiceGraph.tsx:15-72 | the chart's cells add up to the total of the paid invoices |
| Mailer.ReplaceAbsent | app/utils/nodemailer.ts:52 | replacing an absent pattern changes nothing |
| Mailer.NoNewOccurrence | app/utils/nodemailer.ts:52 | with a non-empty value foreign to a pattern, the replace leaves no occurrence of it |
| Mailer.LoadTemplate | app/utils/nodemailer.ts:36-56 | the loop applies every entry's replace in entry order |
| Mailer.SubstituteAbsent | app/utils/nodemailer.ts:50-53 | a template with none of the placeholders comes back unchanged |
| Mailer.SubstituteKeepsAbsent | app/utils/nodemailer.ts:50-53 | values foreign to a pattern never introduce it |
| Mailer.SubstituteRemovesAll | app/utils/nodemailer.ts:50-53 | with non-empty values that share no character with any placeholder, no placeholder survives |
| Mailer.PlaceholderCanReappear | app/utils/nodemailer.ts:52 | replacing `{{a}}` by "a" in `{{{{a}}}}` yields a fresh `{{a}}` |
| Mailer.SubjectsTellCreateFromEdit | app/utils/nodemailer.ts:88-116 | a created subject never equals an updated one, and each names its invoice uniquely |
| Mailer.CreateInvoiceMail | app/utils/nodemailer.ts:69-94 | addressed to the client, the created subject, and the body is the template with the invoice fields |
| Mailer.EditInvoiceMail | app/utils/nodemailer.ts:97-122 | the same, with the updated subject |
| Mailer.CompanyPhone | app/utils/nodemailer.ts:151 | the phone when given and non-empty, otherwise the fallback; never empty |
| Mailer.OverdueFieldsAgree | app/utils/nodemailer.ts:143-148 | the status says overdue exactly when days > 0, the message is the due-today text exactly otherwise, and an overdue message quotes the days |
| Mailer.ReminderSubjectUrgency | app/utils/nodemailer.ts:157-159 | the subject starts with "URGENT" exactly when overdue |
| Mailer.ReminderMailOptions | app/utils/nodemailer.ts:125-165 | the reminder's subject and the template filled with the reminder fields |
| Auth.FirstMissing | app/utils/auth.ts:14-26 | every earlier variable is set, and the one found is missing |
| Auth.CheckEnv | app/utils/auth.ts:14-26 | no error exactly when all five variables are set; otherwise the message names the first missing one |
| Auth.Verification | app/utils/auth.ts:62-152 | sent exactly when the address validates, the hour's quota allows it, the URL parses and the transport succeeds; a rejected address leaves the log alone; every failure shows the one generic message |
| Auth.SendVerificationRequest | app/utils/auth.ts:62-152 | the outcome and the new send log are those of `Verification` |
| Auth.InvalidEmailLeavesNoTrace | app/utils/auth.ts:65-73 | a rejected address reports the validator's error and records no send |
| Auth.SpellingsHaveSeparateQuotas | app/utils/auth.ts:65-83 | two spellings of one address validate alike, yet a request for one leaves the other's quota untouched |
| Auth.SignIn | app/utils/auth.ts:167-173 | every sign-in is allowed |
| Auth.SessionCallback | app/utils/auth.ts:174-180 | the user id is copied onto the session's user when both exist; otherwise the session is unchanged |
| Auth.SessionCallbackIdempotent | app/utils/auth.ts:174-180 | running the callback twice equals running it once |
| Auth.Redirect | app/utils/auth.ts:181-188 | a URL under the base is kept; anything else goes to base + "/dashboard"; the result is always under the base |
| Auth.RedirectIdempotent | app/utils/auth.ts:181-188 | a redirect target redirects to itself |

## Left out

- jsPDF itself. The surface records drawing commands instead of building a
  PDF, so `generate` returns the command log rather than a byte buffer;
  serialisation, pagination and fonts' glyph metrics are not modelled.
- `splitTextToSize` is a wrapper function handed to the surface. Nothing is
  assumed about it except that it depends on the text, the width and the
  current font.
- The currency and date formatters (`formatCurrency`, `formatDate`) are opaque
  function values. The footer's year (`new Date().getFullYear()`) is a
  parameter.
- Colours and line widths are only recorded, never interpreted.
- Lowercasing is ASCII only: JavaScript's `toLowerCase` covers all of
  Unicode. Trimming removes the full ECMAScript WhiteSpace and LineTerminator
  set. JavaScript strings are UTF-16 code units where Dafny has characters.
- `crypto.getRandomValues`, which fills a `Uint8Array(32)`, is a parameter: the
  token is a function of the 32 bytes.
- `Date.now()` is a parameter `now`. In the middleware one `now` serves both
  the sweep and the check of a request.
- The middleware's `Math.random() < 0.1` sweep trigger (a 10% chance) is the boolean
  parameter `sweep`. The email-security module's `setInterval` sweep becomes
  a method a caller may invoke at any time.
- Concurrency between requests is not modelled; each call is atomic.
- Auth.VerificationMail: carries the link `url` in place of the `text` and
  `html` bodies that `sendMail` receives; both bodies embed that url in fixed
  Indonesian copy and markup, which the model does not reproduce.
- Database queries (Prisma) are not part of this model: their results are
  parameters, given as lists of the selected columns.
- `date-fns` day keys (`format(date, "MMM dd")`, `eachDayOfInterval`) are
  given as strings.
- `Object.entries` lists integer-like keys before other keys; the model keeps
  insertion order only, which matches day and currency keys as the source
  produces them.
- `fs.readFileSync` of the mail templates: the template text is a parameter.
  Nodemailer's transport, `emailConfig` (port parsing, TLS options),
  `sendMail`, and the console logging are not part of this model.
  `sendMail` rejecting is a parameter.
- `new URL(url).host` is an `Option` parameter; `None` stands for a URL that
  throws.
- NextAuth's configuration (adapter, pages, session lifetime, events) and
  the React components are not part of this model.
- Zod's `email()` check is the parameter `isEmail`. Zod's built-in messages
  are `None`; only the schema's own messages are spelt out. `FormData`
  coercion is not modelled.
- Numbers: money is `real` (no floating-point rounding). Invoice numbers, due
  days, days overdue and years are `int`, printed as decimal digits; the
  JavaScript rendering of non-integer numbers is not modelled.
- EmailSecurity.TokenValidityWindow: expiry hours are whole numbers. The
  source's `expiryHours` is a JavaScript number that may be fractional (0.5
  gives a 30-minute window), and `new Date(...)` truncates the sum to whole
  milliseconds; neither is modelled.
- EmailSecurity.SendsPerHourBounded: the hourly limit `maxPerHour` is a whole
  number here (also in `SendAllowed`, `AfterSend` and
  `EmailSendLog.CanSendEmail`), where the source accepts any JavaScript number.
- Mailer.LoadTemplate: requires plain-letter keys and values without `$`
  replacement patterns, because `String.replace` with a regular expression
  interprets the key as a pattern and `$&`-style sequences in the value.
  `Mailer.CreateInvoiceMail`, `Mailer.EditInvoiceMail` and
  `Mailer.ReminderMailOptions` inherit this requirement.
- Mailer.SubstituteRemovesAll: weaker than "values without braces leave no
  placeholder". That claim is false: `Mailer.PlaceholderCanReappear` shows a
  replacement completing a fresh `{{a}}` from the template's surrounding
  braces. The lemma therefore requires values sharing no character with any
  placeholder.
- InvoiceGraph.Accumulate, InvoiceGraph.AccFold and InvoiceGraph.AddPaid:
  require every bucket to hold every used currency. This always holds for
  the buckets `getData` builds (`InvoiceGraph.AccFoldBuckets`), so the
  missing-currency path of the `forEach` is not modelled.
- EmailSecurity.GenerateSecureToken: requires exactly 32 random bytes, which
  is what the source always draws.
