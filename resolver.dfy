/**
 * The attribute resolver: each lookup the composer makes with `dict.get(key, default)`,
 * total on every key, with the fixed fallback of its table.
 */
module Resolver {
  import opened Wrappers
  import opened Taxonomy

  /**
   * `table.get(key, table[fallback])`: the entry under `key` when there is one, otherwise
   * the entry under the fallback key. Total on every key, never failing, since the
   * fallback is itself in the table.
   */
  function Lookup<V(==)>(table: map<string, V>, key: string, fallback: string): (r: V)
    requires fallback in table
    ensures r in table.Values
    ensures key in table ==> r == table[key]
    ensures key !in table ==> r == table[fallback]
  {
    if key in table then table[key] else table[fallback]
  }

  /** The era key the composer uses: the given one, or `mid_century_1950s` when absent. */
  function EraKey(era: Option<string>): (key: string)
    ensures era.Some? ==> key == era.value
    ensures era.None? ==> key == DEFAULT_ERA
  {
    era.GetOr(DEFAULT_ERA)
  }

  /**
   * The era record: that of the given key when it names an era, and exactly the
   * `mid_century_1950s` record when the key is absent or unknown.
   */
  function ResolveEra(era: Option<string>): (r: EraStyle)
    ensures r in ERA_STYLES.Values
    ensures |r.typography| > 0
    ensures era.Some? && era.value in ERA_STYLES ==> r == ERA_STYLES[era.value]
    ensures era.None? || era.value !in ERA_STYLES ==> r == ERA_STYLES["mid_century_1950s"]
  {
    DefaultsPresent();
    var key := EraKey(era);
    EraTypographyNonEmpty(if key in ERA_STYLES then key else DEFAULT_ERA);
    Lookup(ERA_STYLES, key, DEFAULT_ERA)
  }

  /**
   * The material record of a primary material: its own entry when the vocabulary has
   * one, otherwise exactly the `coated_cardboard` entry.
   */
  function ResolveMaterial(primary: string): (r: MaterialSpec)
    ensures r in MATERIAL_VOCABULARY.Values
    ensures primary in MATERIAL_VOCABULARY ==> r == MATERIAL_VOCABULARY[primary]
    ensures primary !in MATERIAL_VOCABULARY ==> r == MATERIAL_VOCABULARY["coated_cardboard"]
  {
    DefaultsPresent();
    Lookup(MATERIAL_VOCABULARY, primary, DEFAULT_MATERIAL)
  }

  /**
   * The typography description of a style name: its own entry when the table has one,
   * otherwise exactly the `bold_utilitarian` description.
   */
  function ResolveTypography(styleName: string): (r: Prose)
    ensures r in TYPOGRAPHY_STYLES.Values
    ensures styleName in TYPOGRAPHY_STYLES ==> r == TYPOGRAPHY_STYLES[styleName]
    ensures styleName !in TYPOGRAPHY_STYLES ==> r == TYPOGRAPHY_STYLES["bold_utilitarian"]
  {
    DefaultsPresent();
    Lookup(TYPOGRAPHY_STYLES, styleName, DEFAULT_TYPOGRAPHY)
  }

  /** The brand-tone key the composer uses: the given one, or `wholesome_family` when absent. */
  function BrandKey(brandTone: Option<string>): (key: string)
    ensures brandTone.Some? ==> key == brandTone.value
    ensures brandTone.None? ==> key == DEFAULT_BRAND_TONE
  {
    brandTone.GetOr(DEFAULT_BRAND_TONE)
  }

  /**
   * The brand-tone record: that of the given key when it names a tone, and exactly the
   * `wholesome_family` record when the key is absent or unknown.
   */
  function ResolveBrand(brandTone: Option<string>): (r: BrandTone)
    ensures r in BRAND_TONES.Values
    ensures brandTone.Some? && brandTone.value in BRAND_TONES ==> r == BRAND_TONES[brandTone.value]
    ensures brandTone.None? || brandTone.value !in BRAND_TONES ==> r == BRAND_TONES["wholesome_family"]
  {
    DefaultsPresent();
    Lookup(BRAND_TONES, BrandKey(brandTone), DEFAULT_BRAND_TONE)
  }
}
