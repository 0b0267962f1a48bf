# Classic confections packaging mapper, in Dafny

This project models the deterministic core of the `classic_confections_mcp` server. That
core turns an analysed packaging intent (era, candy type, brand tone, mood, colour hints)
into a bundle of visual design parameters for a vintage candy package. It has two parts.

- **Taxonomy.** A fixed set of tables: eight eras, six package formats, the material
  vocabulary, the typography styles, five brand tones and six display contexts.
- **Parameter mapper** (`map_packaging_parameters`). It does the following, in order:
  - resolves the era with a fallback to `mid_century_1950s`;
  - classifies the candy type into a package format by keyword rules, where the first
    matching rule wins and `bar_wrapper` is the fallback;
  - resolves the format's primary material with a fallback to `coated_cardboard`;
  - resolves the era's primary typography with a fallback to `bold_utilitarian`;
  - resolves the brand tone with a fallback to `wholesome_family`;
  - picks a display context by four ordered rules;
  - copies the mood and the colour hints through.

It also models the four read-only reference tools: the era, format and brand-tone listings,
and the curated era and brand-tone combinations.

Modules:

- `Wrappers` holds `Option` and `Result`. `Option.GetOr` models `dict.get(key, default)` on
  the intent.
- `Strings` models Python's substring test `word in text` as `Contains`, and proves it
  equal to "some offset holds an occurrence". It also gives the two lemmas used to show
  a keyword's absence: a missing character, and splitting the text.
- `Taxonomy` holds the tables as maps. Every long descriptive text is a `Prose(owner, field)`
  handle, and `PROSE_TEXT` maps each table handle to its text, so that proofs about the
  structure of the tables do not have to carry the prose. The display-context texts form
  the separate part `DISPLAY_CONTEXT_TEXT`. The texts of the curated combinations are in
  `Reference.COMBINATION_EXAMPLES`. The module also proves facts about the
  tables' data:
  - every fallback key is present;
  - of the eight eras, only `depression_1930s`'s primary typography (`condensed_gothic`)
    is a key of the typography table, so every other era gets the `bold_utilitarian`
    description;
  - only `twist_wrap`, `box_and_sleeve` and `tin_container` have a primary material that
    the vocabulary knows.
- `FormatClassifier` is the candy-type classifier, written as the source's if/elif chain.
  It is proved equal to a first-match search over a rule table. Worked examples cover
  each branch, and the rule order.
- `Resolver` holds the `get`-with-fallback lookups. `ContextSelector` holds the
  display-context rules.
- `Composer` holds `Compose`, the whole mapping, with one lemma per output section.
- `Reference` holds the listings. They are imperative loops over the table keys, proved to
  produce exactly one summary per key. It also holds the combinations table.

Matching is case-sensitive. `map_packaging_parameters` tests the raw `candy_type` and does
not lowercase it (server.py:320). `FormatClassifier.MatchingIsCaseSensitive` shows that
`"MINT"` falls through to `bar_wrapper` while `"mint"` gives `tin_container`.

## Model

| member | source | states |
|---|---|---|
| Wrappers.Option.GetOr | classic_confections_mcp/server.py:315 | an absent intent field yields the default, a present one its own value |
| Strings.Contains | classic_confections_mcp/server.py:320-329 | Python's `word in text`, case-sensitive: a match needs `word` no longer than `text`, the empty word is always found, and a text contains itself |
| Strings.ContainsIffOccurs | classic_confections_mcp/server.py:320-329 | Python's `word in text` holds exactly when some offset of `text` starts an occurrence of `word` |
| Strings.NotContainsMissingChar | classic_confections_mcp/server.py:320-329 | a keyword with a character the text lacks is not a substring of it |
| Strings.ContainsAt | classic_confections_mcp/server.py:320-329 | an occurrence at any offset makes `in` true |
| Strings.NotContainsSplit | classic_confections_mcp/server.py:320-329 | a keyword absent from two overlapping pieces of a text is absent from the text |
| Taxonomy.DefaultsPresent | classic_confections_mcp/server.py:316-345 | each fallback key (`mid_century_1950s`, `coated_cardboard`, `bold_utilitarian`, `wholesome_family`) is a key of its table, so no fallback lookup raises |
| Taxonomy.EraTypographyNonEmpty | classic_confections_mcp/server.py:21-78 | every era lists three typography styles, so `typography[0]` exists |
| Taxonomy.FormatMaterialsNonEmpty | classic_confections_mcp/server.py:80-123 | every format lists three materials, so `materials[0]` exists |
| Taxonomy.OnlyDepressionTypographyResolves | classic_confections_mcp/server.py:21-78 | an era's primary typography is a typography-table key exactly for `depression_1930s` |
| Taxonomy.PrimaryMaterialResolves | classic_confections_mcp/server.py:80-162 | a format's primary material is in the vocabulary exactly for `twist_wrap`, `box_and_sleeve` and `tin_container` |
| Taxonomy.BrandTypicalErasAreEras | classic_confections_mcp/server.py:176-207 | every typical era of a brand tone is an era key |
| Taxonomy.DisplayContextsDistinct | classic_confections_mcp/server.py:210-217 | the six display-context handles are pairwise different |
| Taxonomy.DisplayContextTextInProseText | classic_confections_mcp/server.py:210-217 | each display-context text is the text `PROSE_TEXT` gives that handle |
| Taxonomy.DisplayContextTextsDistinct | classic_confections_mcp/server.py:210-217 | every display context has a text, and the six texts are pairwise different |
| FormatClassifier.FirstMatch | classic_confections_mcp/server.py:320-331 | the index returned is that of the first rule with a matching keyword, or the rule count when none matches |
| FormatClassifier.ClassifyFormat | classic_confections_mcp/server.py:319-331 | the format key is one of the five the rules can produce |
| FormatClassifier.ClassifierRange | classic_confections_mcp/server.py:319-333 | every candy type classifies to a format-table key, and never to `counter_jar` |
| FormatClassifier.ContainsAnyTwo | classic_confections_mcp/server.py:320-329 | `a in t or b in t` is the two-keyword rule's test |
| FormatClassifier.ContainsAnyThree | classic_confections_mcp/server.py:322 | `a in t or b in t or c in t` is the three-keyword rule's test |
| FormatClassifier.ClassifyIsFirstMatchingRule | classic_confections_mcp/server.py:320-331 | the if/elif chain equals the first matching rule of the ordered rule table, with `bar_wrapper` when none matches |
| FormatClassifier.DefaultCandyTypeGivesBarWrapper | classic_confections_mcp/server.py:319-321 | the default candy type `chocolate_bar` gives `bar_wrapper` |
| FormatClassifier.EarlierRuleWins | classic_confections_mcp/server.py:320-329 | "chocolate caramel bar" matches both the first rule and the last one, and gives `bar_wrapper`: the earlier rule wins |
| FormatClassifier.BarWrapperByKeywords | classic_confections_mcp/server.py:320-321 | a text containing "chocolate" or "bar" gives `bar_wrapper` |
| FormatClassifier.TinContainerByKeywords | classic_confections_mcp/server.py:320-323 | without "chocolate" and "bar", a text containing "hard", "mint" or "lozenge" gives `tin_container` |
| FormatClassifier.CellophaneBagByKeywords | classic_confections_mcp/server.py:320-325 | without the keywords of the first two rules, a text containing "gum" or "jelly" gives `cellophane_bag` |
| FormatClassifier.BoxAndSleeveByKeywords | classic_confections_mcp/server.py:320-327 | without the keywords of the first three rules, a text containing "assort" or "collection" gives `box_and_sleeve` |
| FormatClassifier.TwistWrapByKeywords | classic_confections_mcp/server.py:320-329 | without the keywords of the first four rules, a text containing "taffy" or "caramel" gives `twist_wrap` |
| FormatClassifier.MilkChocolateBar | classic_confections_mcp/server.py:320-321 | "milk chocolate bar" gives `bar_wrapper` |
| FormatClassifier.PeppermintLozenge | classic_confections_mcp/server.py:322-323 | "peppermint lozenge" gives `tin_container` |
| FormatClassifier.GummyJellyBeansLetters | classic_confections_mcp/server.py:320-325 | "gummy jelly beans" has no keyword of the first two rules and contains "gum" |
| FormatClassifier.CellophaneBagByLetters | classic_confections_mcp/server.py:320-325 | a text without the characters 'c', 'r', 'h', 'i' and 'z' and with "gum" at offset 0 gives `cellophane_bag` |
| FormatClassifier.GummyJellyBeans | classic_confections_mcp/server.py:324-325 | "gummy jelly beans" gives `cellophane_bag` |
| FormatClassifier.AssortedCollectionBoxLetters | classic_confections_mcp/server.py:320-327 | "assorted collection box" has no keyword of the first three rules and contains "assort" |
| FormatClassifier.BoxAndSleeveByLetters | classic_confections_mcp/server.py:320-327 | a 23-character text without 'h', 'm', 'z', 'g' and 'j', with no 'b' before offset 20, no 'a' from offset 18 on and "assort" at offset 0, gives `box_and_sleeve` |
| FormatClassifier.AssortedCollectionBox | classic_confections_mcp/server.py:326-327 | "assorted collection box" gives `box_and_sleeve` |
| FormatClassifier.SoftCaramelTaffyLetters | classic_confections_mcp/server.py:320-329 | "soft caramel taffy" has no keyword of the first four rules and contains "caramel" |
| FormatClassifier.TwistWrapByLetters | classic_confections_mcp/server.py:320-329 | an 18-character text without 'h', 'b', 'i', 'z', 'g' and 'j', with no 'a' in its first six characters, no 's' after the first and "caramel" at offset 5, gives `twist_wrap` |
| FormatClassifier.SoftCaramelTaffy | classic_confections_mcp/server.py:328-329 | "soft caramel taffy" gives `twist_wrap` |
| FormatClassifier.EmptyCandyType | classic_confections_mcp/server.py:330-331 | an empty candy type matches no keyword and gives `bar_wrapper` |
| FormatClassifier.MatchingIsCaseSensitive | classic_confections_mcp/server.py:322-331 | "mint" gives `tin_container`, while "MINT" matches no hard-candy keyword and gives `bar_wrapper` |
| Resolver.Lookup | classic_confections_mcp/server.py:316 | `table.get(key, table[fallback])` is the key's entry when present and the fallback's otherwise, never failing |
| Resolver.EraKey | classic_confections_mcp/server.py:315 | the era key is the given one, or `mid_century_1950s` when absent |
| Resolver.ResolveEra | classic_confections_mcp/server.py:315-316 | a known era key gives its record; an absent or unknown one gives the `mid_century_1950s` record |
| Resolver.ResolveMaterial | classic_confections_mcp/server.py:336-337 | a known material gives its record, any other gives the `coated_cardboard` record |
| Resolver.ResolveTypography | classic_confections_mcp/server.py:340-341 | a known style gives its description, any other the `bold_utilitarian` one |
| Resolver.BrandKey | classic_confections_mcp/server.py:344 | the brand key is the given one, or `wholesome_family` when absent |
| Resolver.ResolveBrand | classic_confections_mcp/server.py:344-345 | a known tone gives its record; an absent or unknown one gives the `wholesome_family` record |
| ContextSelector.SelectDisplayContext | classic_confections_mcp/server.py:348-355 | `premium_luxury` gives `gift_presentation`; otherwise `tin_container` gives `counter_display`, `counter_jar` gives `candy_shop`, and anything else gives `shelf_facing` |
| ContextSelector.CandyShopExactly | classic_confections_mcp/server.py:348-355 | `candy_shop` is chosen exactly for `counter_jar` under a brand key other than `premium_luxury` |
| Composer.Compose | classic_confections_mcp/server.py:309-312 | the result is an error exactly for unparseable input, and that error is "Invalid JSON input" |
| Composer.ComposeEra | classic_confections_mcp/server.py:315-316 | `period` echoes the given era key even when it is unknown; the era fields are that era's, or `mid_century_1950s`'s when absent or unknown |
| Composer.ComposeFormat | classic_confections_mcp/server.py:319-333 | `type` is the classifier's verdict on the candy type (`bar_wrapper` when it is absent), a format key other than `counter_jar`; the fields are that format's |
| Composer.ComposeMaterial | classic_confections_mcp/server.py:336-337 | `primary` is the format's first material; the fields are its vocabulary entry or `coated_cardboard`'s |
| Composer.BarWrapperUsesCoatedCardboard | classic_confections_mcp/server.py:320-337 | a `bar_wrapper` bundle has primary `foil_inner` and the `coated_cardboard` material fields |
| Composer.ComposeTypography | classic_confections_mcp/server.py:340-341 | `style_name` is the resolved era's first typography; the description is its entry or `bold_utilitarian`'s, and is `bold_utilitarian`'s exactly when the era is not `depression_1930s` |
| Composer.ComposeBrand | classic_confections_mcp/server.py:344-345 | `personality` echoes the given brand key even when it is unknown; the fields are that tone's, or `wholesome_family`'s when absent or unknown |
| Composer.ComposeDisplayContext | classic_confections_mcp/server.py:348-355 | the display context follows the four ordered rules on the raw brand key and the format, and is never the candy-shop text |
| Composer.ComposePassThrough | classic_confections_mcp/server.py:392-393 | the colour hints and the mood are copied from the intent, defaulting to none and to "nostalgic vintage charm" |
| Composer.ComposeIgnoresToneAndReferences | classic_confections_mcp/server.py:309-396 | the intent's `tone` and `specific_references` do not affect the bundle |
| Composer.UnknownEraEchoedWithDefaultFields | classic_confections_mcp/server.py:315-316 | the era key "not_a_real_era" is echoed as `period` with the `mid_century_1950s` fields |
| Composer.DecoLuxuryPackaging | classic_confections_mcp/server.py:319-337 | the candy type "chocolate_bar" maps to `bar_wrapper` / `foil_inner` with the `coated_cardboard` fields |
| Composer.DecoLuxuryStyle | classic_confections_mcp/server.py:340-349 | the era `art_deco_1920s` with the tone `premium_luxury` maps to `geometric_sans` with the `bold_utilitarian` description and to the gift presentation |
| Composer.DecoLuxuryChocolateBar | classic_confections_mcp/server.py:295-396 | a 1920s premium-luxury chocolate bar maps to `bar_wrapper` / `foil_inner` with `coated_cardboard` fields, to `geometric_sans` with the `bold_utilitarian` description, and to the gift presentation |
| Reference.Take | classic_confections_mcp/server.py:563-564 | `s[:n]` has length `min(len(s), n)` and is a prefix of `s` |
| Reference.ListAvailableEras | classic_confections_mcp/server.py:559-567 | exactly one summary per era key: its atmosphere and composition, its first three colours and its first two decorations |
| Reference.ListPackageFormats | classic_confections_mcp/server.py:577-584 | exactly one summary per format key: its typical candy, materials and display |
| Reference.ListBrandPersonalities | classic_confections_mcp/server.py:594-601 | exactly one summary per brand-tone key: its messaging, first three cues and typical eras |
| Reference.EraCombinations | classic_confections_mcp/server.py:611-653 | there are eight curated combinations |
| Reference.CombinationErasAreEras | classic_confections_mcp/server.py:611-653 | every combination's era is an era key |
| Reference.CombinationBrandTonesAreBrandTones | classic_confections_mcp/server.py:611-653 | every combination's brand tone is a brand-tone key |
| Reference.EraSummarySizes | classic_confections_mcp/server.py:563-564 | every era summary lists exactly three colours, its first three, and two decorations |
| Reference.BrandSummarySizes | classic_confections_mcp/server.py:598 | every brand summary's visual cues are exactly the tone's first three cues |

## Left out

- The MCP server wiring (FastMCP registration, tool dispatch, the `main` entry point) is left out: it is framework I/O.
- `analyze_packaging_intent`, `synthesize_packaging_prompt` and `enhance_packaging_prompt` are left out: they only build prompt text for a language model.
- JSON parsing is left out: the input is `Request = Malformed | Parsed(Intent)`, so malformed JSON is one case and a parsed intent has each field absent or present.
- A JSON field of the wrong type (a number or `null` where a string is expected) is not modelled. Python would raise a `TypeError` in the substring test or echo the value back; the model's intent fields are typed.
- The descriptive texts are handles in the bundle and in the summaries. `Taxonomy.PROSE_TEXT` and `Reference.COMBINATION_EXAMPLES` hold the texts themselves. Only the display-context handles are proved to resolve to their texts; no lemma states that every other handle resolves, because proofs over the full texts are too costly.
- Reference.ListAvailableEras, Reference.ListPackageFormats, Reference.ListBrandPersonalities: the wrapping single-key document (`{"available_eras": …}` and the like) and Python's dict insertion order are not modelled; the result is the inner map.
- Reference.EraCombinations: the wrapping `recommended_combinations` key is not modelled.
- Composer.Compose: JSON that parses to something other than an object (`[]`, `42`, `"x"`) is not modelled. `json.loads` accepts it (server.py:310), and then `intent.get` raises `AttributeError` (server.py:315), so the server returns neither a bundle nor the error document. `Request` has no value for this input, so "an error exactly for unparseable input" speaks only of inputs that `Malformed` and `Parsed` describe.
- Composer.Compose: the bundle is a record rather than a JSON document, so key spelling and order of the output dictionary are not modelled.
- Determinism (the same intent always gives the same parameters) holds because every member is a function of its inputs; no separate lemma states it.
