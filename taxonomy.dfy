/**
 * The six read-only taxonomy tables of the packaging server, keyed by string,
 * and the facts about their contents that the mapping layer relies on.
 *
 * The keys and every list-valued field are the server's own strings. Each long
 * descriptive text is held as a `Prose` handle naming the entry and field it
 * belongs to; `PROSE_TEXT` maps every table handle to the server's text, the
 * display-context texts forming its separate last part `DISPLAY_CONTEXT_TEXT`.
 */
module Taxonomy {

  /** The handle of one descriptive text: the table key it belongs to and the field it fills. */
  datatype Prose = Prose(owner: string, field: string)

  /** A record of the era table. */
  datatype EraStyle = EraStyle(
    typography: seq<string>,
    decoration: seq<string>,
    colors: seq<string>,
    composition: string,
    atmosphere: Prose)

  /** A record of the package-format table; `materials[0]` is the primary material. */
  datatype PackageFormat = PackageFormat(
    structure: Prose,
    materials: seq<string>,
    typicalCandy: seq<string>,
    display: Prose,
    visualNotes: Prose)

  /** A record of the material vocabulary. */
  datatype MaterialSpec = MaterialSpec(
    visual: Prose,
    colors: seq<string>,
    eraPeak: string,
    tactile: Prose)

  /** A record of the brand-tone table. */
  datatype BrandTone = BrandTone(
    cues: seq<string>,
    typicalEras: seq<string>,
    messaging: Prose,
    colorApproach: Prose)

  const ERA_STYLES: map<string, EraStyle> := map[
    "victorian_1890s" := EraStyle(
      ["ornate_serif", "hand_lettered_script", "decorative_capitals"],
      ["botanical_borders", "cherubs", "ribbon_banners", "floral_corners"],
      ["deep_jewel_tones", "gold_accents", "burgundy", "forest_green"],
      "centered_symmetrical",
      Prose("victorian_1890s", "atmosphere")),
    "art_nouveau_1900s" := EraStyle(
      ["flowing_organic", "whiplash_curves", "nature_inspired_letters"],
      ["stylized_flora", "maiden_figures", "peacock_motifs", "sinuous_vines"],
      ["muted_pastels", "nature_greens", "copper_bronze", "lilac_mauve"],
      "organic_asymmetrical",
      Prose("art_nouveau_1900s", "atmosphere")),
    "art_deco_1920s" := EraStyle(
      ["geometric_sans", "streamlined_serif", "inline_patterns"],
      ["sunburst_patterns", "zigzag_borders", "stepped_forms", "chevron_details"],
      ["black_gold", "chrome_silver", "bold_contrast", "deep_brown"],
      "vertical_emphasis_geometric",
      Prose("art_deco_1920s", "atmosphere")),
    "depression_1930s" := EraStyle(
      ["condensed_gothic", "hand_brush_casual", "economical_lettering"],
      ["simple_borders", "price_emphasis", "wholesome_scenes", "minimal_ornament"],
      ["economical_two_color", "red_blue_basics", "kraft_brown"],
      "efficient_readable",
      Prose("depression_1930s", "atmosphere")),
    "wartime_1940s" := EraStyle(
      ["bold_sans", "patriotic_block", "strong_condensed"],
      ["stars_stripes", "victory_themes", "minimal_ornament", "ration_messaging"],
      ["red_white_blue", "kraft_paper_brown", "utilitarian_palette"],
      "utilitarian_direct",
      Prose("wartime_1940s", "atmosphere")),
    "mid_century_1950s" := EraStyle(
      ["atomic_age_script", "googie_lettering", "swooping_moderne"],
      ["boomerang_shapes", "starbursts", "abstract_modern", "kidney_shapes"],
      ["turquoise_pink", "avocado_orange", "optimistic_brights", "chrome_accents"],
      "dynamic_diagonal",
      Prose("mid_century_1950s", "atmosphere")),
    "psychedelic_1960s" := EraStyle(
      ["groovy_bubble", "op_art_distorted", "flowing_organic"],
      ["swirls_paisley", "flower_power", "concentric_patterns", "mandala_forms"],
      ["neon_saturation", "purple_orange", "acid_brights", "rainbow_spectrum"],
      "all_over_pattern",
      Prose("psychedelic_1960s", "atmosphere")),
    "retro_1970s" := EraStyle(
      ["rounded_friendly", "fat_face_serif", "balloon_letters"],
      ["rainbow_stripes", "smiley_faces", "geometric_simple", "disco_elements"],
      ["earth_tones", "harvest_gold", "burnt_orange_brown", "avocado_green"],
      "centered_bold_simple",
      Prose("retro_1970s", "atmosphere"))
  ]

  const PACKAGE_FORMATS: map<string, PackageFormat> := map[
    "twist_wrap" := PackageFormat(
      Prose("twist_wrap", "structure"),
      ["wax_paper", "foil", "cellophane"],
      ["hard_candies", "taffy", "caramels", "butterscotch"],
      Prose("twist_wrap", "display"),
      Prose("twist_wrap", "visual_notes")),
    "bar_wrapper" := PackageFormat(
      Prose("bar_wrapper", "structure"),
      ["foil_inner", "paper_outer", "glassine"],
      ["chocolate_bars", "nougat_bars", "candy_bars"],
      Prose("bar_wrapper", "display"),
      Prose("bar_wrapper", "visual_notes")),
    "box_and_sleeve" := PackageFormat(
      Prose("box_and_sleeve", "structure"),
      ["coated_cardboard", "embossed_paper", "die_cut_windows"],
      ["assorted_chocolates", "premium_confections", "truffles"],
      Prose("box_and_sleeve", "display"),
      Prose("box_and_sleeve", "visual_notes")),
    "tin_container" := PackageFormat(
      Prose("tin_container", "structure"),
      ["lithographed_tin", "embossed_metal", "printed_label"],
      ["mints", "hard_candies", "toffees", "lozenges"],
      Prose("tin_container", "display"),
      Prose("tin_container", "visual_notes")),
    "cellophane_bag" := PackageFormat(
      Prose("cellophane_bag", "structure"),
      ["clear_cellophane", "printed_card_top", "twist_tie_or_staple"],
      ["gummies", "jellies", "wrapped_assortments"],
      Prose("cellophane_bag", "display"),
      Prose("cellophane_bag", "visual_notes")),
    "counter_jar" := PackageFormat(
      Prose("counter_jar", "structure"),
      ["clear_glass", "metal_lid", "paper_label"],
      ["penny_candies", "bulk_confections", "hard_candies"],
      Prose("counter_jar", "display"),
      Prose("counter_jar", "visual_notes"))
  ]

  const MATERIAL_VOCABULARY: map<string, MaterialSpec> := map[
    "foil" := MaterialSpec(
      Prose("foil", "visual"),
      ["gold", "silver", "colored_foil", "bronze"],
      "1920s-1960s",
      Prose("foil", "tactile")),
    "wax_paper" := MaterialSpec(
      Prose("wax_paper", "visual"),
      ["white", "cream", "pastels", "two_color_print"],
      "1900s-1950s",
      Prose("wax_paper", "tactile")),
    "cellophane" := MaterialSpec(
      Prose("cellophane", "visual"),
      ["clear", "tinted", "printed_overlay"],
      "1930s-1970s",
      Prose("cellophane", "tactile")),
    "lithographed_tin" := MaterialSpec(
      Prose("lithographed_tin", "visual"),
      ["full_color_illustration", "gold_trim", "vintage_printing"],
      "1890s-1930s",
      Prose("lithographed_tin", "tactile")),
    "coated_cardboard" := MaterialSpec(
      Prose("coated_cardboard", "visual"),
      ["vibrant_offset_printing", "spot_colors", "full_color"],
      "1940s-1970s",
      Prose("coated_cardboard", "tactile")),
    "embossed_paper" := MaterialSpec(
      Prose("embossed_paper", "visual"),
      ["metallic_foil_stamping", "rich_solid_colors"],
      "1890s-1920s",
      Prose("embossed_paper", "tactile"))
  ]

  const TYPOGRAPHY_STYLES: map<string, Prose> := map[
    "ornate_victorian" := Prose("ornate_victorian", "description"),
    "art_nouveau_organic" := Prose("art_nouveau_organic", "description"),
    "art_deco_geometric" := Prose("art_deco_geometric", "description"),
    "hand_lettered_casual" := Prose("hand_lettered_casual", "description"),
    "atomic_modern" := Prose("atomic_modern", "description"),
    "bubble_psychedelic" := Prose("bubble_psychedelic", "description"),
    "bold_utilitarian" := Prose("bold_utilitarian", "description"),
    "condensed_gothic" := Prose("condensed_gothic", "description"),
    "googie_lettering" := Prose("googie_lettering", "description")
  ]

  const BRAND_TONES: map<string, BrandTone> := map[
    "premium_luxury" := BrandTone(
      ["gold_foil_accents", "embossing", "elegant_script", "French_phrases", "quality_seals"],
      ["art_nouveau_1900s", "art_deco_1920s"],
      Prose("premium_luxury", "messaging"),
      Prose("premium_luxury", "color_approach")),
    "wholesome_family" := BrandTone(
      ["hand_drawn_children", "farm_scenes", "mother_figure", "home_made_quality", "wholesome_imagery"],
      ["depression_1930s", "wartime_1940s", "mid_century_1950s"],
      Prose("wholesome_family", "messaging"),
      Prose("wholesome_family", "color_approach")),
    "novelty_fun" := BrandTone(
      ["cartoon_mascots", "bright_colors", "exclamation_points", "kid_appeal", "playful_illustration"],
      ["mid_century_1950s", "psychedelic_1960s", "retro_1970s"],
      Prose("novelty_fun", "messaging"),
      Prose("novelty_fun", "color_approach")),
    "traditional_heritage" := BrandTone(
      ["established_date", "family_recipe", "old_world_imagery", "heritage_seals", "classic_typography"],
      ["victorian_1890s", "art_nouveau_1900s", "depression_1930s"],
      Prose("traditional_heritage", "messaging"),
      Prose("traditional_heritage", "color_approach")),
    "modern_progressive" := BrandTone(
      ["clean_lines", "modern_illustration", "contemporary_style", "innovative_messaging"],
      ["mid_century_1950s", "psychedelic_1960s", "retro_1970s"],
      Prose("modern_progressive", "messaging"),
      Prose("modern_progressive", "color_approach"))
  ]

  const DISPLAY_CONTEXTS: map<string, Prose> := map[
    "counter_display" := Prose("counter_display", "description"),
    "shelf_facing" := Prose("shelf_facing", "description"),
    "advertisement_view" := Prose("advertisement_view", "description"),
    "gift_presentation" := Prose("gift_presentation", "description"),
    "drugstore_nostalgia" := Prose("drugstore_nostalgia", "description"),
    "candy_shop" := Prose("candy_shop", "description")
  ]

  /** The descriptive texts the handles stand for, as the server's tables give them. */
  const PROSE_TEXT: map<Prose, string> := map[
    Prose("victorian_1890s", "atmosphere") :=
      "ornate Victorian elegance, highly decorated, intricate details",
    Prose("art_nouveau_1900s", "atmosphere") :=
      "Art Nouveau flowing lines, organic forms, feminine elegance",
    Prose("art_deco_1920s", "atmosphere") :=
      "Art Deco sophistication, geometric precision, metallic glamour",
    Prose("depression_1930s", "atmosphere") :=
      "Depression-era practicality, wholesome imagery, value messaging",
    Prose("wartime_1940s", "atmosphere") :=
      "WWII-era patriotism, utilitarian design, morale-boosting",
    Prose("mid_century_1950s", "atmosphere") :=
      "1950s optimism, atomic age energy, modern suburban lifestyle",
    Prose("psychedelic_1960s", "atmosphere") :=
      "1960s psychedelia, youth culture, vibrant energy, counterculture",
    Prose("retro_1970s", "atmosphere") :=
      "1970s nostalgia, warm earth tones, friendly approachable design",
    Prose("twist_wrap", "structure") :=
      "cylindrical with twisted ends, candy visible through transparent sections",
    Prose("twist_wrap", "display") :=
      "bulk jar or counter rolls",
    Prose("twist_wrap", "visual_notes") :=
      "twisted end crimps, cylindrical form, often semi-transparent",
    Prose("bar_wrapper", "structure") :=
      "flat rectangular fold, inner foil visible at edges",
    Prose("bar_wrapper", "display") :=
      "counter box or standing rack",
    Prose("bar_wrapper", "visual_notes") :=
      "crisp folds, foil shimmer at edges, rectangular proportions",
    Prose("box_and_sleeve", "structure") :=
      "inner tray slides into decorative outer sleeve",
    Prose("box_and_sleeve", "display") :=
      "shelf facing forward, gift presentation",
    Prose("box_and_sleeve", "visual_notes") :=
      "dimensional box form, sleeve decoration, possible window showing contents",
    Prose("tin_container", "structure") :=
      "hinged or slip-lid metal container with all-over decoration",
    Prose("tin_container", "display") :=
      "counter display or gift tin",
    Prose("tin_container", "visual_notes") :=
      "metallic sheen, embossed texture, aged patina, dimensional form",
    Prose("cellophane_bag", "structure") :=
      "clear bag with printed header card at top",
    Prose("cellophane_bag", "display") :=
      "pegboard hanging or counter bin",
    Prose("cellophane_bag", "visual_notes") :=
      "transparent bag showing colorful contents, header card decoration",
    Prose("counter_jar", "structure") :=
      "glass jar with decorative lid and label",
    Prose("counter_jar", "display") :=
      "drugstore or candy shop counter",
    Prose("counter_jar", "visual_notes") :=
      "cylindrical glass form, contents visible, vintage label design",
    Prose("foil", "visual") :=
      "reflective metallic surface, embossed texture, crisp angular folds catching light",
    Prose("foil", "tactile") :=
      "smooth metallic, crinkled texture, sharp creases",
    Prose("wax_paper", "visual") :=
      "translucent matte finish, soft organic folds, printed flat colors",
    Prose("wax_paper", "tactile") :=
      "waxy smooth, semi-transparent, gentle crinkle",
    Prose("cellophane", "visual") :=
      "glossy transparent surface, crinkled texture catching light, tape sealed",
    Prose("cellophane", "tactile") :=
      "crisp plastic crinkle, glossy smooth, transparent",
    Prose("lithographed_tin", "visual") :=
      "rich printed colors on metal, embossed details, aged patina and wear",
    Prose("lithographed_tin", "tactile") :=
      "solid metal weight, embossed raised details, smooth or textured surface",
    Prose("coated_cardboard", "visual") :=
      "matte or glossy coated paper, die-cut windows, visible fold lines",
    Prose("coated_cardboard", "tactile") :=
      "sturdy cardboard, smooth coating, dimensional box structure",
    Prose("embossed_paper", "visual") :=
      "raised decorative patterns, textured surface, dimensional details",
    Prose("embossed_paper", "tactile") :=
      "textured raised surface, premium paper weight, tactile decoration",
    Prose("ornate_victorian", "description") :=
      "heavily embellished serif, drop shadows, inline decoration, multiple ornate fonts, decorative capitals",
    Prose("art_nouveau_organic", "description") :=
      "flowing organic curves, nature-inspired letterforms, asymmetric layout, whiplash lines",
    Prose("art_deco_geometric", "description") :=
      "angular geometric forms, stepped shapes, inline metallic patterns, streamlined serif, vertical emphasis",
    Prose("hand_lettered_casual", "description") :=
      "friendly brush script, irregular personal touch, warm hand-drawn quality",
    Prose("atomic_modern", "description") :=
      "swooping kinetic scripts, starburst accents, dynamic angles, forward motion",
    Prose("bubble_psychedelic", "description") :=
      "rounded inflated bubble letters, distorted op-art effects, groovy organic forms",
    Prose("bold_utilitarian", "description") :=
      "strong sans serif impact, maximum legibility, minimal decoration, direct communication",
    Prose("condensed_gothic", "description") :=
      "tall narrow letters, economical space usage, strong vertical emphasis",
    Prose("googie_lettering", "description") :=
      "space age curves, boomerang accents, atomic starbursts, optimistic energy",
    Prose("premium_luxury", "messaging") :=
      "superior quality, refined taste, special occasion, gift-worthy",
    Prose("premium_luxury", "color_approach") :=
      "restrained elegant palette, metallic accents, sophisticated contrast",
    Prose("wholesome_family", "messaging") :=
      "family tradition, pure ingredients, trusted recipe, home comfort",
    Prose("wholesome_family", "color_approach") :=
      "warm approachable colors, pastoral scenes, comforting palette",
    Prose("novelty_fun", "messaging") :=
      "fun excitement, kid-friendly, flavor adventure, playful energy",
    Prose("novelty_fun", "color_approach") :=
      "saturated brights, rainbow colors, high contrast, energetic",
    Prose("traditional_heritage", "messaging") :=
      "time-tested quality, authentic recipe, generations of expertise",
    Prose("traditional_heritage", "color_approach") :=
      "classic colors, burgundy and gold, traditional palette, timeless",
    Prose("modern_progressive", "messaging") :=
      "new and improved, forward-thinking, contemporary taste",
    Prose("modern_progressive", "color_approach") :=
      "bold modern palette, unexpected combinations, fresh approach"
  ] + DISPLAY_CONTEXT_TEXT

  /** The text of each display-context handle; the last part of `PROSE_TEXT`. */
  const DISPLAY_CONTEXT_TEXT: map<Prose, string> := map[
    Prose("counter_display", "description") :=
      "vintage store counter perspective, other period products nearby, warm interior lighting",
    Prose("shelf_facing", "description") :=
      "straight-on shelf view, multiple packages in row, retail environment",
    Prose("advertisement_view", "description") :=
      "clean product shot, promotional angle, idealized presentation",
    Prose("gift_presentation", "description") :=
      "special occasion setting, ribbon or wrapping visible, premium context",
    Prose("drugstore_nostalgia", "description") :=
      "old pharmacy counter, glass jars and tins, period-appropriate fixtures",
    Prose("candy_shop", "description") :=
      "traditional candy store display, bulk containers, nostalgic atmosphere"
  ]

  // The fixed fallback keys of the four lookups the composer makes with a default.
  const DEFAULT_ERA := "mid_century_1950s"
  const DEFAULT_MATERIAL := "coated_cardboard"
  const DEFAULT_TYPOGRAPHY := "bold_utilitarian"
  const DEFAULT_BRAND_TONE := "wholesome_family"

  /** Every fallback key is itself a key of its table, so no fallback lookup can fail. */
  lemma DefaultsPresent()
    ensures DEFAULT_ERA in ERA_STYLES
    ensures DEFAULT_MATERIAL in MATERIAL_VOCABULARY
    ensures DEFAULT_TYPOGRAPHY in TYPOGRAPHY_STYLES
    ensures DEFAULT_BRAND_TONE in BRAND_TONES
  {
  }

  /** Every era names exactly three typography styles, so `typography[0]` exists. */
  lemma EraTypographyNonEmpty(key: string)
    requires key in ERA_STYLES
    ensures |ERA_STYLES[key].typography| == 3
  {
  }

  /** Every package format names exactly three materials, so `materials[0]` exists. */
  lemma FormatMaterialsNonEmpty(key: string)
    requires key in PACKAGE_FORMATS
    ensures |PACKAGE_FORMATS[key].materials| == 3
  {
  }

  /**
   * Of the eight eras, only the 1930s era's primary typography (`condensed_gothic`)
   * is a key of the typography table; every other era's falls back.
   */
  lemma OnlyDepressionTypographyResolves(key: string)
    requires key in ERA_STYLES
    ensures ERA_STYLES[key].typography[0] in TYPOGRAPHY_STYLES <==> key == "depression_1930s"
  {
  }

  /**
   * A format's primary material is a key of the material vocabulary exactly for
   * `twist_wrap`, `box_and_sleeve` and `tin_container`; `bar_wrapper`'s `foil_inner`,
   * `cellophane_bag`'s `clear_cellophane` and `counter_jar`'s `clear_glass` fall back.
   */
  lemma PrimaryMaterialResolves(key: string)
    requires key in PACKAGE_FORMATS
    ensures PACKAGE_FORMATS[key].materials[0] in MATERIAL_VOCABULARY
        <==> key in {"twist_wrap", "box_and_sleeve", "tin_container"}
  {
  }

  /** Every era a brand tone lists as typical is a key of the era table. */
  lemma BrandTypicalErasAreEras(key: string, k: nat)
    requires key in BRAND_TONES && k < |BRAND_TONES[key].typicalEras|
    ensures BRAND_TONES[key].typicalEras[k] in ERA_STYLES
  {
  }

  /** The six display-context handles are pairwise different, so a handle identifies its key. */
  lemma DisplayContextsDistinct(a: string, b: string)
    requires a in DISPLAY_CONTEXTS && b in DISPLAY_CONTEXTS
    ensures DISPLAY_CONTEXTS[a] == DISPLAY_CONTEXTS[b] <==> a == b
  {
  }

  /** A display-context text is the text `PROSE_TEXT` gives its handle. */
  lemma DisplayContextTextInProseText(p: Prose)
    requires p in DISPLAY_CONTEXT_TEXT
    ensures p in PROSE_TEXT && PROSE_TEXT[p] == DISPLAY_CONTEXT_TEXT[p]
  {
  }

  /**
   * Every display context has a text, and the six texts are pairwise different, so a
   * context's text identifies its key.
   */
  lemma DisplayContextTextsDistinct(a: string, b: string)
    requires a in DISPLAY_CONTEXTS && b in DISPLAY_CONTEXTS
    ensures DISPLAY_CONTEXTS[a] in DISPLAY_CONTEXT_TEXT && DISPLAY_CONTEXTS[b] in DISPLAY_CONTEXT_TEXT
    ensures DISPLAY_CONTEXT_TEXT[DISPLAY_CONTEXTS[a]] == DISPLAY_CONTEXT_TEXT[DISPLAY_CONTEXTS[b]] <==> a == b
  {
  }
}
