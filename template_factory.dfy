/** The template catalogue and the factory that picks a template by its
    identifier. The identifier arrives as a string: the static type names the
    four identifiers, but the factory also handles any other string by falling
    back to Modern Blue. */
module TemplateFactory {
  import opened Common
  import opened BaseTemplate
  import opened Surface
  import opened PdfTemplate

  /** What the template picker shows for one template. */
  datatype TemplateInfo = TemplateInfo(
    id: string,
    name: string,
    description: string,
    preview: string,
    features: seq<string>)

  /** The identifier string of each template type. */
  function TypeId(theme: Theme): string {
    match theme
    case ModernBlueTheme => "MODERN_BLUE"
    case ClassicMinimalTheme => "CLASSIC_MINIMAL"
    case ProfessionalDarkTheme => "PROFESSIONAL_DARK"
    case CreativeColorfulTheme => "CREATIVE_COLORFUL"
  }

  const AVAILABLE_TEMPLATES: seq<TemplateInfo> := [
    TemplateInfo("MODERN_BLUE", "Modern Blue",
      "Template modern dengan aksen biru yang profesional dan clean",
      "/templates/modern-blue-preview.png",
      ["Header biru elegant", "Layout terstruktur", "Alternating row colors", "Professional footer"]),
    TemplateInfo("CLASSIC_MINIMAL", "Classic Minimal",
      "Template klasik minimalis dengan desain yang bersih dan sederhana",
      "/templates/classic-minimal-preview.png",
      ["Desain minimalis", "Typography klasik", "Layout sederhana", "Fokus pada konten"]),
    TemplateInfo("PROFESSIONAL_DARK", "Professional Dark",
      "Template profesional dengan tema gelap dan aksen merah",
      "/templates/professional-dark-preview.png",
      ["Dark theme", "Red accent colors", "Corporate look", "Premium feel"]),
    TemplateInfo("CREATIVE_COLORFUL", "Creative Colorful",
      "Template kreatif dengan warna-warna cerah dan elemen visual menarik",
      "/templates/creative-colorful-preview.png",
      ["Rainbow colors", "Creative elements", "Emoji icons", "Fun design"])
  ]

  /** The theme the factory's switch selects for an identifier; anything that is
      not one of the four identifiers selects Modern Blue. */
  function ThemeOf(templateType: string): (theme: Theme)
    ensures templateType == TypeId(theme) || theme == ModernBlueTheme
  {
    if templateType == "CLASSIC_MINIMAL" then ClassicMinimalTheme
    else if templateType == "PROFESSIONAL_DARK" then ProfessionalDarkTheme
    else if templateType == "CREATIVE_COLORFUL" then CreativeColorfulTheme
    else ModernBlueTheme
  }

  /** `createTemplate`: a new template of the selected theme over the invoice. */
  method CreateTemplate(templateType: string, data: InvoiceData, fmt: Fmt, wrap: Wrapper)
    returns (t: Template)
    ensures fresh(t) && fresh(t.pdf)
    ensures t.theme == ThemeOf(templateType) && t.data == data && t.fmt == fmt
    ensures t.pdf.wrap == wrap && t.pdf.log == [FontFace("helvetica", Normal)]
  {
    if templateType == "MODERN_BLUE" {
      t := new Template(ModernBlueTheme, data, fmt, wrap);
    } else if templateType == "CLASSIC_MINIMAL" {
      t := new Template(ClassicMinimalTheme, data, fmt, wrap);
    } else if templateType == "PROFESSIONAL_DARK" {
      t := new Template(ProfessionalDarkTheme, data, fmt, wrap);
    } else if templateType == "CREATIVE_COLORFUL" {
      t := new Template(CreativeColorfulTheme, data, fmt, wrap);
    } else {
      t := new Template(ModernBlueTheme, data, fmt, wrap);
    }
  }

  /** `Array.prototype.find` with the predicate "has this id": the first entry
      whose id matches, or nothing. */
  function Find(entries: seq<TemplateInfo>, id: string): (r: Option<TemplateInfo>)
    ensures r.None? <==> forall k :: 0 <= k < |entries| ==> entries[k].id != id
    ensures r.Some? ==> exists k :: 0 <= k < |entries| && entries[k] == r.value
                          && entries[k].id == id
                          && forall j :: 0 <= j < k ==> entries[j].id != id
  {
    if |entries| == 0 then None
    else if entries[0].id == id then Some(entries[0])
    else
      var rest := Find(entries[1..], id);
      assert forall k :: 1 <= k < |entries| ==> entries[k] == entries[1..][k - 1];
      if rest.Some? then
        ghost var k :| 0 <= k < |entries[1..]| && entries[1..][k] == rest.value
                     && entries[1..][k].id == id
                     && forall j :: 0 <= j < k ==> entries[1..][j].id != id;
        assert entries[k + 1] == rest.value;
        rest
      else rest
  }

  function GetTemplateInfo(templateType: string): Option<TemplateInfo> {
    Find(AVAILABLE_TEMPLATES, templateType)
  }

  /** The catalogue: each entry is the one `getTemplateInfo` finds for its
      identifier (the order is CatalogueOrder's). */
  function GetAllTemplates(): (all: seq<TemplateInfo>)
    ensures |all| == 4
    ensures forall k :: 0 <= k < |all| ==> |all[k].features| == 4
    ensures forall k :: 0 <= k < |all| ==> GetTemplateInfo(all[k].id) == Some(all[k])
  {
    CatalogueRoundTrip();
    AVAILABLE_TEMPLATES
  }

  /** The factory turns every theme's identifier back into that theme. */
  lemma ThemeOfTypeId(theme: Theme)
    ensures ThemeOf(TypeId(theme)) == theme
  {
    match theme
    case ModernBlueTheme =>
    case ClassicMinimalTheme =>
    case ProfessionalDarkTheme =>
    case CreativeColorfulTheme =>
  }

  /** An identifier that is none of the four falls back to Modern Blue. */
  lemma UnknownTypeFallsBack(templateType: string)
    requires forall theme: Theme :: TypeId(theme) != templateType
    ensures ThemeOf(templateType) == ModernBlueTheme
  {
    assert TypeId(ClassicMinimalTheme) != templateType;
    assert TypeId(ProfessionalDarkTheme) != templateType;
    assert TypeId(CreativeColorfulTheme) != templateType;
  }

  /** The catalogue lists the four templates in the order of the type, one entry
      per theme, each under its theme's identifier. */
  lemma CatalogueOrder()
    ensures |AVAILABLE_TEMPLATES| == 4
    ensures AVAILABLE_TEMPLATES[0].id == TypeId(ModernBlueTheme)
    ensures AVAILABLE_TEMPLATES[1].id == TypeId(ClassicMinimalTheme)
    ensures AVAILABLE_TEMPLATES[2].id == TypeId(ProfessionalDarkTheme)
    ensures AVAILABLE_TEMPLATES[3].id == TypeId(CreativeColorfulTheme)
    ensures forall j, k :: 0 <= j < k < |AVAILABLE_TEMPLATES| ==>
              AVAILABLE_TEMPLATES[j].id != AVAILABLE_TEMPLATES[k].id
  {
  }

  /** Every theme has catalogue information, and the information found for a
      theme's identifier is the entry carrying that identifier. */
  lemma InfoForEveryTheme(theme: Theme)
    ensures GetTemplateInfo(TypeId(theme)).Some?
    ensures GetTemplateInfo(TypeId(theme)).value.id == TypeId(theme)
    ensures ThemeOf(GetTemplateInfo(TypeId(theme)).value.id) == theme
  {
    ThemeOfTypeId(theme);
    match theme
    case ModernBlueTheme => assert AVAILABLE_TEMPLATES[0].id == TypeId(theme);
    case ClassicMinimalTheme => assert AVAILABLE_TEMPLATES[1].id == TypeId(theme);
    case ProfessionalDarkTheme => assert AVAILABLE_TEMPLATES[2].id == TypeId(theme);
    case CreativeColorfulTheme => assert AVAILABLE_TEMPLATES[3].id == TypeId(theme);
  }

  /** Looking up each catalogue entry's id gives back that entry. */
  lemma InfoRoundTrip(k: nat)
    requires k < |AVAILABLE_TEMPLATES|
    ensures GetTemplateInfo(AVAILABLE_TEMPLATES[k].id) == Some(AVAILABLE_TEMPLATES[k])
  {
    CatalogueOrder();
  }

  lemma CatalogueRoundTrip()
    ensures forall k :: 0 <= k < |AVAILABLE_TEMPLATES| ==>
              GetTemplateInfo(AVAILABLE_TEMPLATES[k].id) == Some(AVAILABLE_TEMPLATES[k])
  {
    forall k | 0 <= k < |AVAILABLE_TEMPLATES|
      ensures GetTemplateInfo(AVAILABLE_TEMPLATES[k].id) == Some(AVAILABLE_TEMPLATES[k])
    {
      InfoRoundTrip(k);
    }
  }

  /** An identifier outside the catalogue has no information. */
  lemma UnknownTypeHasNoInfo(templateType: string)
    requires forall theme: Theme :: TypeId(theme) != templateType
    ensures GetTemplateInfo(templateType) == None
  {
    assert TypeId(ModernBlueTheme) != templateType;
    assert TypeId(ClassicMinimalTheme) != templateType;
    assert TypeId(ProfessionalDarkTheme) != templateType;
    assert TypeId(CreativeColorfulTheme) != templateType;
  }
}
