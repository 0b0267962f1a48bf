/** The display-context decision: four ordered branches on the brand key and the format key. */
module ContextSelector {
  import opened Taxonomy

  /**
   * The display-context key. The raw brand key `premium_luxury` gives `gift_presentation`
   * whatever the format; otherwise `tin_container` gives `counter_display`, `counter_jar`
   * gives `candy_shop`, and everything else `shelf_facing`.
   */
  function SelectDisplayContext(brandKey: string, formatKey: string): (context: string)
    ensures context in DISPLAY_CONTEXTS
    ensures brandKey == "premium_luxury" ==> context == "gift_presentation"
    ensures brandKey != "premium_luxury" && formatKey == "tin_container" ==> context == "counter_display"
    ensures brandKey != "premium_luxury" && formatKey == "counter_jar" ==> context == "candy_shop"
    ensures brandKey != "premium_luxury" && formatKey !in {"tin_container", "counter_jar"} ==>
      context == "shelf_facing"
  {
    if brandKey == "premium_luxury" then "gift_presentation"
    else if formatKey == "tin_container" then "counter_display"
    else if formatKey == "counter_jar" then "candy_shop"
    else "shelf_facing"
  }

  /**
   * `candy_shop` is chosen exactly for a `counter_jar` format under a brand key other
   * than `premium_luxury`.
   */
  lemma CandyShopExactly(brandKey: string, formatKey: string)
    ensures SelectDisplayContext(brandKey, formatKey) == "candy_shop"
        <==> brandKey != "premium_luxury" && formatKey == "counter_jar"
  {
  }
}
