/**
 * The read-only reference tools: projections of the era, format and brand-tone tables,
 * each built entry by entry over the table's keys, and the curated era and brand-tone
 * pairings.
 */
module Reference {
  import opened Taxonomy

  /** Python's `s[:n]`: the first `n` elements, or all of `s` when it is shorter. */
  function Take(s: seq<string>, n: nat): (r: seq<string>)
    ensures |r| == if |s| < n then |s| else n
    ensures r <= s
  {
    if |s| <= n then s else s[..n]
  }

  /** The summary of one era that the era listing gives. */
  datatype EraSummary = EraSummary(
    atmosphere: Prose,
    keyColors: seq<string>,
    decorationStyle: seq<string>,
    composition: string)

  /** The summary of one package format that the format listing gives. */
  datatype FormatSummary = FormatSummary(
    typicalCandy: seq<string>,
    materials: seq<string>,
    display: Prose)

  /** The summary of one brand tone that the brand-tone listing gives. */
  datatype BrandSummary = BrandSummary(
    messaging: Prose,
    visualCues: seq<string>,
    typicalEras: seq<string>)

  /** One curated pairing of an era with a brand tone. */
  datatype Combination = Combination(era: string, brandTone: string, example: Prose)

  /** An era's summary: its atmosphere and composition, first three colors and first two decorations. */
  function SummarizeEra(e: EraStyle): EraSummary
  {
    EraSummary(e.atmosphere, Take(e.colors, 3), Take(e.decoration, 2), e.composition)
  }

  /** A format's summary: its typical candies, materials and display, unchanged. */
  function SummarizeFormat(f: PackageFormat): FormatSummary
  {
    FormatSummary(f.typicalCandy, f.materials, f.display)
  }

  /** A brand tone's summary: its messaging, first three cues and typical eras. */
  function SummarizeBrand(t: BrandTone): BrandSummary
  {
    BrandSummary(t.messaging, Take(t.cues, 3), t.typicalEras)
  }

  /** `list_available_eras`: exactly one summary per era key. */
  method ListAvailableEras() returns (eras: map<string, EraSummary>)
    ensures eras.Keys == ERA_STYLES.Keys
    ensures forall key :: key in eras ==> eras[key] == SummarizeEra(ERA_STYLES[key])
  {
    eras := map[];
    var pending := ERA_STYLES.Keys;
    while pending != {}
      invariant pending <= ERA_STYLES.Keys
      invariant eras.Keys == ERA_STYLES.Keys - pending
      invariant forall key :: key in eras ==> eras[key] == SummarizeEra(ERA_STYLES[key])
      decreases |pending|
    {
      var key :| key in pending;
      eras := eras[key := SummarizeEra(ERA_STYLES[key])];
      pending := pending - {key};
    }
  }

  /** `list_package_formats`: exactly one summary per format key. */
  method ListPackageFormats() returns (formats: map<string, FormatSummary>)
    ensures formats.Keys == PACKAGE_FORMATS.Keys
    ensures forall key :: key in formats ==> formats[key] == SummarizeFormat(PACKAGE_FORMATS[key])
  {
    formats := map[];
    var pending := PACKAGE_FORMATS.Keys;
    while pending != {}
      invariant pending <= PACKAGE_FORMATS.Keys
      invariant formats.Keys == PACKAGE_FORMATS.Keys - pending
      invariant forall key :: key in formats ==> formats[key] == SummarizeFormat(PACKAGE_FORMATS[key])
      decreases |pending|
    {
      var key :| key in pending;
      formats := formats[key := SummarizeFormat(PACKAGE_FORMATS[key])];
      pending := pending - {key};
    }
  }

  /** `list_brand_personalities`: exactly one summary per brand-tone key. */
  method ListBrandPersonalities() returns (personalities: map<string, BrandSummary>)
    ensures personalities.Keys == BRAND_TONES.Keys
    ensures forall key :: key in personalities ==> personalities[key] == SummarizeBrand(BRAND_TONES[key])
  {
    personalities := map[];
    var pending := BRAND_TONES.Keys;
    while pending != {}
      invariant pending <= BRAND_TONES.Keys
      invariant personalities.Keys == BRAND_TONES.Keys - pending
      invariant forall key :: key in personalities ==> personalities[key] == SummarizeBrand(BRAND_TONES[key])
      decreases |pending|
    {
      var key :| key in pending;
      personalities := personalities[key := SummarizeBrand(BRAND_TONES[key])];
      pending := pending - {key};
    }
  }

  /** `get_era_combinations`: eight curated pairings of an era with a brand tone. */
  function EraCombinations(): (combinations: map<string, Combination>)
    ensures |combinations| == 8
  {
    map[
      "elegant_victorian" := Combination("victorian_1890s", "traditional_heritage", Prose("elegant_victorian", "example")),
      "art_nouveau_luxury" := Combination("art_nouveau_1900s", "premium_luxury", Prose("art_nouveau_luxury", "example")),
      "deco_glamour" := Combination("art_deco_1920s", "premium_luxury", Prose("deco_glamour", "example")),
      "depression_wholesome" := Combination("depression_1930s", "wholesome_family", Prose("depression_wholesome", "example")),
      "wartime_patriotic" := Combination("wartime_1940s", "wholesome_family", Prose("wartime_patriotic", "example")),
      "atomic_fun" := Combination("mid_century_1950s", "novelty_fun", Prose("atomic_fun", "example")),
      "psychedelic_novelty" := Combination("psychedelic_1960s", "novelty_fun", Prose("psychedelic_novelty", "example")),
      "seventies_friendly" := Combination("retro_1970s", "wholesome_family", Prose("seventies_friendly", "example"))
    ]
  }

  /** The example sentence of each curated pairing. */
  const COMBINATION_EXAMPLES: map<Prose, string> := map[
    Prose("elegant_victorian", "example") :=
      "Victorian heritage toffee tin with botanical decoration",
    Prose("art_nouveau_luxury", "example") :=
      "Art Nouveau chocolate box with maiden and floral motifs",
    Prose("deco_glamour", "example") :=
      "Art Deco gold foil wrapper with geometric sunbursts",
    Prose("depression_wholesome", "example") :=
      "Depression-era family candy bar with value messaging",
    Prose("wartime_patriotic", "example") :=
      "WWII candy tin with stars and stripes, morale messaging",
    Prose("atomic_fun", "example") :=
      "1950s candy with atomic starbursts and space age mascot",
    Prose("psychedelic_novelty", "example") :=
      "1960s groovy candy with flower power and rainbow colors",
    Prose("seventies_friendly", "example") :=
      "1970s earth tone candy bar with smiley face and rainbows"
  ]

  /** Every curated pairing names a key of the era table, so composing it uses that era's own record. */
  lemma CombinationErasAreEras(name: string)
    requires name in EraCombinations()
    ensures EraCombinations()[name].era in ERA_STYLES
  {
  }

  /** Every curated pairing names a key of the brand-tone table. */
  lemma CombinationBrandTonesAreBrandTones(name: string)
    requires name in EraCombinations()
    ensures EraCombinations()[name].brandTone in BRAND_TONES
  {
  }

  /** Every era has at least three colors and two decorations, so its summary lists exactly that many. */
  lemma EraSummarySizes(key: string)
    requires key in ERA_STYLES
    ensures |SummarizeEra(ERA_STYLES[key]).keyColors| == 3
    ensures |SummarizeEra(ERA_STYLES[key]).decorationStyle| == 2
    ensures SummarizeEra(ERA_STYLES[key]).keyColors == ERA_STYLES[key].colors[..3]
  {
  }

  /** Every brand tone has at least three cues, so its summary lists exactly its first three. */
  lemma BrandSummarySizes(key: string)
    requires key in BRAND_TONES
    ensures SummarizeBrand(BRAND_TONES[key]).visualCues == BRAND_TONES[key].cues[..3]
  {
  }
}
