/**
 * The bundle composer (`map_packaging_parameters`): from an intent record to a complete
 * parameter bundle, by the format classifier, the resolver's lookups and the
 * display-context decision, with the intent's color hints and mood passed through.
 */
module Composer {
  import opened Wrappers
  import opened Strings
  import opened Taxonomy
  import opened FormatClassifier
  import opened Resolver
  import opened ContextSelector

  /**
   * The intent record after JSON parsing. Every field may be absent; a present key
   * need not name a table entry.
   */
  datatype Intent = Intent(
    era: Option<string>,
    candyType: Option<string>,
    tone: Option<string>,
    mood: Option<string>,
    colorHints: Option<seq<string>>,
    brandTone: Option<string>,
    specificReferences: Option<seq<string>>)

  /** The composer's input: text that failed to parse as JSON, or the parsed intent. */
  datatype Request = Malformed | Parsed(intent: Intent)

  datatype EraSection = EraSection(
    period: string,
    typography: seq<string>,
    decoration: seq<string>,
    colors: seq<string>,
    composition: string,
    atmosphere: Prose)

  datatype FormatSection = FormatSection(
    formatType: string,
    structure: Prose,
    materials: seq<string>,
    display: Prose,
    visualNotes: Prose)

  datatype MaterialSection = MaterialSection(
    primary: string,
    visual: Prose,
    colors: seq<string>,
    tactile: Prose,
    eraPeak: string)

  datatype TypographySection = TypographySection(styleName: string, description: Prose)

  datatype BrandSection = BrandSection(
    personality: string,
    cues: seq<string>,
    messaging: Prose,
    colorApproach: Prose)

  /** The parameter bundle, one field per key of the server's result dictionary. */
  datatype Bundle = Bundle(
    eraStyle: EraSection,
    packageFormat: FormatSection,
    materialSpecs: MaterialSection,
    typography: TypographySection,
    brandTone: BrandSection,
    displayContext: Prose,
    userColorHints: seq<string>,
    mood: string)

  /** The error document's message for input that is not JSON. */
  const INVALID_JSON := "Invalid JSON input"

  /** The mood used when the intent gives none. */
  const DEFAULT_MOOD := "nostalgic vintage charm"

  /** The era section carries every field of the era record `e`. */
  predicate CarriesEra(s: EraSection, e: EraStyle)
  {
    s.typography == e.typography && s.decoration == e.decoration && s.colors == e.colors
    && s.composition == e.composition && s.atmosphere == e.atmosphere
  }

  /** The format section carries the fields of the format record `f` that the bundle copies. */
  predicate CarriesFormat(s: FormatSection, f: PackageFormat)
  {
    s.structure == f.structure && s.materials == f.materials && s.display == f.display
    && s.visualNotes == f.visualNotes
  }

  /** The material section carries every field of the material record `m`. */
  predicate CarriesMaterial(s: MaterialSection, m: MaterialSpec)
  {
    s.visual == m.visual && s.colors == m.colors && s.tactile == m.tactile && s.eraPeak == m.eraPeak
  }

  /** The brand section carries the fields of the brand record `t` that the bundle copies. */
  predicate CarriesBrand(s: BrandSection, t: BrandTone)
  {
    s.cues == t.cues && s.messaging == t.messaging && s.colorApproach == t.colorApproach
  }

  /**
   * `map_packaging_parameters`: unparseable input yields only the error document;
   * a parsed intent always yields a bundle, whatever its fields hold.
   */
  function Compose(request: Request): (r: Result<Bundle>)
    ensures r.Err? <==> request.Malformed?
    ensures request.Malformed? ==> r == Err(INVALID_JSON)
  {
    match request
    case Malformed => Err(INVALID_JSON)
    case Parsed(intent) =>
      var era := EraKey(intent.era);
      var eraStyle := ResolveEra(intent.era);
      var candyType := intent.candyType.GetOr(DEFAULT_CANDY_TYPE);
      var formatKey := ClassifyFormat(candyType);
      ClassifierRange(candyType);
      FormatMaterialsNonEmpty(formatKey);
      var packageFormat := PACKAGE_FORMATS[formatKey];
      var primaryMaterial := packageFormat.materials[0];
      var materialSpecs := ResolveMaterial(primaryMaterial);
      var typoStyle := eraStyle.typography[0];
      var typography := ResolveTypography(typoStyle);
      var brandToneKey := BrandKey(intent.brandTone);
      var brandTone := ResolveBrand(intent.brandTone);
      var displayContext := DISPLAY_CONTEXTS[SelectDisplayContext(brandToneKey, formatKey)];
      Ok(Bundle(
        EraSection(era, eraStyle.typography, eraStyle.decoration, eraStyle.colors,
                   eraStyle.composition, eraStyle.atmosphere),
        FormatSection(formatKey, packageFormat.structure, packageFormat.materials,
                      packageFormat.display, packageFormat.visualNotes),
        MaterialSection(primaryMaterial, materialSpecs.visual, materialSpecs.colors,
                        materialSpecs.tactile, materialSpecs.eraPeak),
        TypographySection(typoStyle, typography),
        BrandSection(brandToneKey, brandTone.cues, brandTone.messaging, brandTone.colorApproach),
        displayContext,
        intent.colorHints.GetOr([]),
        intent.mood.GetOr(DEFAULT_MOOD)))
  }

  /**
   * Era section: `period` echoes the given key (or `mid_century_1950s` when absent), even
   * when it names no era; the fields are those of that era, or exactly those of
   * `mid_century_1950s` when the key is absent or unknown.
   */
  lemma ComposeEra(intent: Intent)
    ensures Compose(Parsed(intent)).Ok?
    ensures Compose(Parsed(intent)).value.eraStyle.period == intent.era.GetOr("mid_century_1950s")
    ensures intent.era.Some? && intent.era.value in ERA_STYLES ==>
      CarriesEra(Compose(Parsed(intent)).value.eraStyle, ERA_STYLES[intent.era.value])
    ensures intent.era.None? || intent.era.value !in ERA_STYLES ==>
      CarriesEra(Compose(Parsed(intent)).value.eraStyle, ERA_STYLES["mid_century_1950s"])
  {
  }

  /**
   * Package-format section: its type is the classifier's verdict on the candy type
   * ("chocolate_bar" when absent, hence `bar_wrapper`), a key of the format table other
   * than `counter_jar`, and its fields are copied from that table entry.
   */
  lemma ComposeFormat(intent: Intent)
    ensures Compose(Parsed(intent)).Ok?
    ensures Compose(Parsed(intent)).value.packageFormat.formatType ==
      ClassifyFormat(intent.candyType.GetOr("chocolate_bar"))
    ensures Compose(Parsed(intent)).value.packageFormat.formatType in PACKAGE_FORMATS
    ensures Compose(Parsed(intent)).value.packageFormat.formatType != "counter_jar"
    ensures intent.candyType.None? ==> Compose(Parsed(intent)).value.packageFormat.formatType == "bar_wrapper"
    ensures CarriesFormat(Compose(Parsed(intent)).value.packageFormat,
      PACKAGE_FORMATS[Compose(Parsed(intent)).value.packageFormat.formatType])
  {
    ClassifierRange(intent.candyType.GetOr(DEFAULT_CANDY_TYPE));
    if intent.candyType.None? {
      DefaultCandyTypeGivesBarWrapper();
    }
  }

  /**
   * Material section: `primary` is always the chosen format's first material, and the
   * other fields come from its vocabulary entry, or from `coated_cardboard` when the
   * vocabulary has none.
   */
  lemma ComposeMaterial(intent: Intent)
    ensures Compose(Parsed(intent)).Ok?
    ensures var b := Compose(Parsed(intent)).value;
      b.packageFormat.formatType in PACKAGE_FORMATS &&
      |PACKAGE_FORMATS[b.packageFormat.formatType].materials| > 0 &&
      b.materialSpecs.primary == PACKAGE_FORMATS[b.packageFormat.formatType].materials[0]
    ensures var b := Compose(Parsed(intent)).value;
      b.materialSpecs.primary in MATERIAL_VOCABULARY ==>
        CarriesMaterial(b.materialSpecs, MATERIAL_VOCABULARY[b.materialSpecs.primary])
    ensures var b := Compose(Parsed(intent)).value;
      b.materialSpecs.primary !in MATERIAL_VOCABULARY ==>
        CarriesMaterial(b.materialSpecs, MATERIAL_VOCABULARY["coated_cardboard"])
  {
    var candyType := intent.candyType.GetOr(DEFAULT_CANDY_TYPE);
    ClassifierRange(candyType);
    FormatMaterialsNonEmpty(ClassifyFormat(candyType));
  }

  /**
   * A `bar_wrapper` bundle (every candy type with "chocolate" or "bar", every unmatched
   * one, and an absent one) names `foil_inner` as its primary material, which the
   * vocabulary lacks, so its material fields are those of `coated_cardboard`.
   */
  lemma BarWrapperUsesCoatedCardboard(intent: Intent)
    requires ClassifyFormat(intent.candyType.GetOr("chocolate_bar")) == "bar_wrapper"
    ensures Compose(Parsed(intent)).Ok?
    ensures Compose(Parsed(intent)).value.materialSpecs.primary == "foil_inner"
    ensures CarriesMaterial(Compose(Parsed(intent)).value.materialSpecs, MATERIAL_VOCABULARY["coated_cardboard"])
  {
    ComposeMaterial(intent);
    ComposeFormat(intent);
    PrimaryMaterialResolves("bar_wrapper");
  }

  /**
   * Typography section: `style_name` is the resolved era's first typography entry and
   * the description is its entry in the typography table, or the `bold_utilitarian`
   * text when there is none. Only the 1930s era has its own entry (`condensed_gothic`):
   * the description is the `bold_utilitarian` one exactly when the resolved era is not
   * `depression_1930s`.
   */
  lemma ComposeTypography(intent: Intent)
    ensures Compose(Parsed(intent)).Ok?
    ensures var b := Compose(Parsed(intent)).value;
      |ResolveEra(intent.era).typography| > 0 &&
      b.typography.styleName == ResolveEra(intent.era).typography[0]
    ensures var b := Compose(Parsed(intent)).value;
      b.typography.description ==
        if b.typography.styleName in TYPOGRAPHY_STYLES then TYPOGRAPHY_STYLES[b.typography.styleName]
        else TYPOGRAPHY_STYLES["bold_utilitarian"]
    ensures intent.era != Some("depression_1930s") <==>
      Compose(Parsed(intent)).value.typography.description == TYPOGRAPHY_STYLES["bold_utilitarian"]
  {
    var key := if intent.era.Some? && intent.era.value in ERA_STYLES then intent.era.value else DEFAULT_ERA;
    assert ResolveEra(intent.era) == ERA_STYLES[key];
    OnlyDepressionTypographyResolves(key);
    var style := ERA_STYLES[key].typography[0];
    if style in TYPOGRAPHY_STYLES {
      assert style == "condensed_gothic";
      assert TYPOGRAPHY_STYLES[style] != TYPOGRAPHY_STYLES["bold_utilitarian"];
    }
  }

  /**
   * Brand section: `personality` echoes the given key (or `wholesome_family` when absent),
   * even when it names no tone; the fields are those of that tone, or exactly those of
   * `wholesome_family` when the key is absent or unknown.
   */
  lemma ComposeBrand(intent: Intent)
    ensures Compose(Parsed(intent)).Ok?
    ensures Compose(Parsed(intent)).value.brandTone.personality == intent.brandTone.GetOr("wholesome_family")
    ensures intent.brandTone.Some? && intent.brandTone.value in BRAND_TONES ==>
      CarriesBrand(Compose(Parsed(intent)).value.brandTone, BRAND_TONES[intent.brandTone.value])
    ensures intent.brandTone.None? || intent.brandTone.value !in BRAND_TONES ==>
      CarriesBrand(Compose(Parsed(intent)).value.brandTone, BRAND_TONES["wholesome_family"])
  {
  }

  /**
   * Display context: a raw brand key `premium_luxury` gives `gift_presentation`; otherwise
   * a `tin_container` format gives `counter_display`, and every other bundle
   * `shelf_facing`. Since the classifier never returns `counter_jar`, no bundle has
   * `candy_shop`.
   */
  lemma ComposeDisplayContext(intent: Intent)
    ensures Compose(Parsed(intent)).Ok?
    ensures var b := Compose(Parsed(intent)).value;
      b.displayContext ==
        if b.brandTone.personality == "premium_luxury" then DISPLAY_CONTEXTS["gift_presentation"]
        else if b.packageFormat.formatType == "tin_container" then DISPLAY_CONTEXTS["counter_display"]
        else DISPLAY_CONTEXTS["shelf_facing"]
    ensures Compose(Parsed(intent)).value.displayContext != DISPLAY_CONTEXTS["candy_shop"]
  {
    var candyType := intent.candyType.GetOr(DEFAULT_CANDY_TYPE);
    ClassifierRange(candyType);
    var context := SelectDisplayContext(BrandKey(intent.brandTone), ClassifyFormat(candyType));
    DisplayContextsDistinct(context, "candy_shop");
  }

  /**
   * Pass-through: the color hints are the intent's, verbatim, or empty when absent; the
   * mood is the intent's, or "nostalgic vintage charm" when absent.
   */
  lemma ComposePassThrough(intent: Intent)
    ensures Compose(Parsed(intent)).Ok?
    ensures Compose(Parsed(intent)).value.userColorHints == intent.colorHints.GetOr([])
    ensures Compose(Parsed(intent)).value.mood == intent.mood.GetOr("nostalgic vintage charm")
  {
  }

  /** The intent's `tone` and `specific_references` do not influence the bundle. */
  lemma ComposeIgnoresToneAndReferences(intent: Intent, tone: Option<string>, references: Option<seq<string>>)
    ensures Compose(Parsed(intent)) == Compose(Parsed(intent.(tone := tone, specificReferences := references)))
  {
  }

  /** An unknown era key is echoed as `period` while the fields are the `mid_century_1950s` ones. */
  lemma UnknownEraEchoedWithDefaultFields(intent: Intent)
    requires intent.era == Some("not_a_real_era")
    ensures Compose(Parsed(intent)).Ok?
    ensures Compose(Parsed(intent)).value.eraStyle.period == "not_a_real_era"
    ensures CarriesEra(Compose(Parsed(intent)).value.eraStyle, ERA_STYLES["mid_century_1950s"])
  {
    assert "not_a_real_era" !in ERA_STYLES;
    ComposeEra(intent);
  }

  /** The packaging of the server's own example intent: `bar_wrapper` with `coated_cardboard` material fields. */
  lemma DecoLuxuryPackaging(intent: Intent)
    requires intent.candyType == Some("chocolate_bar")
    ensures Compose(Parsed(intent)).Ok?
    ensures var b := Compose(Parsed(intent)).value;
      b.packageFormat.formatType == "bar_wrapper" && b.materialSpecs.primary == "foil_inner"
      && CarriesMaterial(b.materialSpecs, MATERIAL_VOCABULARY["coated_cardboard"])
  {
    DefaultCandyTypeGivesBarWrapper();
    BarWrapperUsesCoatedCardboard(intent);
    ComposeFormat(intent);
  }

  /**
   * The style of the server's own example intent: typography `geometric_sans` with the
   * `bold_utilitarian` description, and the gift presentation.
   */
  lemma DecoLuxuryStyle(intent: Intent)
    requires intent.era == Some("art_deco_1920s")
    requires intent.brandTone == Some("premium_luxury")
    ensures Compose(Parsed(intent)).Ok?
    ensures var b := Compose(Parsed(intent)).value;
      b.typography.styleName == "geometric_sans"
      && b.typography.description == TYPOGRAPHY_STYLES["bold_utilitarian"]
      && b.displayContext == DISPLAY_CONTEXTS["gift_presentation"]
  {
    ComposeTypography(intent);
    ComposeDisplayContext(intent);
  }

  /**
   * The server's own example intent, a 1920s luxury chocolate bar: `bar_wrapper` with
   * primary material `foil_inner` (so `coated_cardboard` fields), typography
   * `geometric_sans` (so the `bold_utilitarian` description) and the gift presentation.
   */
  lemma DecoLuxuryChocolateBar(intent: Intent)
    requires intent.era == Some("art_deco_1920s")
    requires intent.candyType == Some("chocolate_bar")
    requires intent.brandTone == Some("premium_luxury")
    ensures Compose(Parsed(intent)).Ok?
    ensures var b := Compose(Parsed(intent)).value;
      b.packageFormat.formatType == "bar_wrapper" && b.materialSpecs.primary == "foil_inner"
      && CarriesMaterial(b.materialSpecs, MATERIAL_VOCABULARY["coated_cardboard"])
      && b.typography.styleName == "geometric_sans"
      && b.typography.description == TYPOGRAPHY_STYLES["bold_utilitarian"]
      && b.displayContext == DISPLAY_CONTEXTS["gift_presentation"]
      && CarriesEra(b.eraStyle, ERA_STYLES["art_deco_1920s"])
      && CarriesBrand(b.brandTone, BRAND_TONES["premium_luxury"])
  {
    DecoLuxuryPackaging(intent);
    DecoLuxuryStyle(intent);
    ComposeEra(intent);
    ComposeBrand(intent);
  }
}
