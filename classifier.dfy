/**
 * The format classifier: an ordered chain of case-sensitive substring rules that
 * turns free-text candy type into a package-format key.
 */
module FormatClassifier {
  import opened Strings
  import opened Taxonomy

  /** One classification rule: if any keyword occurs in the text, the rule gives `format`. */
  datatype Rule = Rule(keywords: seq<string>, format: string)

  /** The rules in the order the classifier tries them. */
  const FORMAT_RULES: seq<Rule> := [
    Rule(["chocolate", "bar"], "bar_wrapper"),
    Rule(["hard", "mint", "lozenge"], "tin_container"),
    Rule(["gum", "jelly"], "cellophane_bag"),
    Rule(["assort", "collection"], "box_and_sleeve"),
    Rule(["taffy", "caramel"], "twist_wrap")
  ]

  /** The format used when no rule matches. */
  const FALLBACK_FORMAT := "bar_wrapper"

  /** The candy type assumed when the intent gives none. */
  const DEFAULT_CANDY_TYPE := "chocolate_bar"

  /**
   * The index of the first rule of `rules` that matches `text`, or `|rules|` if none does.
   */
  function FirstMatch(rules: seq<Rule>, text: string): (k: nat)
    ensures k <= |rules|
    ensures k < |rules| ==> ContainsAny(text, rules[k].keywords)
    ensures forall j :: 0 <= j < k ==> !ContainsAny(text, rules[j].keywords)
  {
    if |rules| == 0 then 0
    else if ContainsAny(text, rules[0].keywords) then 0
    else 1 + FirstMatch(rules[1..], text)
  }

  /** The format the rule table assigns: that of the first matching rule, else the fallback. */
  function RuleTableFormat(text: string): string
  {
    var k := FirstMatch(FORMAT_RULES, text);
    if k < |FORMAT_RULES| then FORMAT_RULES[k].format else FALLBACK_FORMAT
  }

  /**
   * The classifier as the server writes it: an if/elif chain of `in` tests on the raw
   * (not lower-cased) candy type. The result is always a package-format key and never
   * `counter_jar`, so the format lookup that follows cannot fail.
   */
  function ClassifyFormat(candyType: string): (formatKey: string)
    ensures formatKey in {"bar_wrapper", "tin_container", "cellophane_bag", "box_and_sleeve", "twist_wrap"}
  {
    if Contains(candyType, "chocolate") || Contains(candyType, "bar") then "bar_wrapper"
    else if Contains(candyType, "hard") || Contains(candyType, "mint") || Contains(candyType, "lozenge") then "tin_container"
    else if Contains(candyType, "gum") || Contains(candyType, "jelly") then "cellophane_bag"
    else if Contains(candyType, "assort") || Contains(candyType, "collection") then "box_and_sleeve"
    else if Contains(candyType, "taffy") || Contains(candyType, "caramel") then "twist_wrap"
    else "bar_wrapper"
  }

  /**
   * Every result of the classifier is a key of the package-format table other than
   * `counter_jar`: the table lookup on it cannot fail, and `counter_jar` is never chosen.
   */
  lemma ClassifierRange(candyType: string)
    ensures ClassifyFormat(candyType) in PACKAGE_FORMATS
    ensures ClassifyFormat(candyType) != "counter_jar"
  {
  }

  /** A two-keyword rule matches exactly when one of its two words occurs. */
  lemma ContainsAnyTwo(text: string, a: string, b: string)
    ensures ContainsAny(text, [a, b]) <==> Contains(text, a) || Contains(text, b)
  {
    if Contains(text, a) { assert [a, b][0] == a; }
    if Contains(text, b) { assert [a, b][1] == b; }
  }

  /** A three-keyword rule matches exactly when one of its three words occurs. */
  lemma ContainsAnyThree(text: string, a: string, b: string, c: string)
    ensures ContainsAny(text, [a, b, c]) <==> Contains(text, a) || Contains(text, b) || Contains(text, c)
  {
    if Contains(text, a) { assert [a, b, c][0] == a; }
    if Contains(text, b) { assert [a, b, c][1] == b; }
    if Contains(text, c) { assert [a, b, c][2] == c; }
  }

  /**
   * The if/elif chain agrees with the ordered rule table on every text: the first rule
   * whose keyword occurs wins, and with no match the result is `bar_wrapper`.
   */
  lemma {:induction false} ClassifyIsFirstMatchingRule(candyType: string)
    ensures ClassifyFormat(candyType) == RuleTableFormat(candyType)
  {
    var r0 := FORMAT_RULES;
    var r1 := r0[1..];
    var r2 := r1[1..];
    var r3 := r2[1..];
    var r4 := r3[1..];
    assert r4[1..] == [];
    assert r1[0] == r0[1] && r2[0] == r0[2] && r3[0] == r0[3] && r4[0] == r0[4];
    ContainsAnyTwo(candyType, "chocolate", "bar");
    ContainsAnyThree(candyType, "hard", "mint", "lozenge");
    ContainsAnyTwo(candyType, "gum", "jelly");
    ContainsAnyTwo(candyType, "assort", "collection");
    ContainsAnyTwo(candyType, "taffy", "caramel");
    if ContainsAny(candyType, r0[0].keywords) {
      assert FirstMatch(r0, candyType) == 0;
    } else if ContainsAny(candyType, r1[0].keywords) {
      assert FirstMatch(r1, candyType) == 0;
    } else if ContainsAny(candyType, r2[0].keywords) {
      assert FirstMatch(r2, candyType) == 0;
    } else if ContainsAny(candyType, r3[0].keywords) {
      assert FirstMatch(r3, candyType) == 0;
    } else if ContainsAny(candyType, r4[0].keywords) {
      assert FirstMatch(r4, candyType) == 0;
    } else {
      assert FirstMatch(r4[1..], candyType) == 0;
    }
  }

  /** An absent candy type is read as "chocolate_bar", which gives `bar_wrapper`. */
  lemma DefaultCandyTypeGivesBarWrapper()
    ensures ClassifyFormat(DEFAULT_CANDY_TYPE) == "bar_wrapper"
  {
    ContainsAt(DEFAULT_CANDY_TYPE, "chocolate", 0);
  }

  /**
   * "chocolate caramel bar" matches both the first rule and the last one, and goes to the
   * first: `bar_wrapper`, not `twist_wrap`.
   */
  lemma EarlierRuleWins(candyType: string)
    requires candyType == "chocolate caramel bar"
    ensures ContainsAny(candyType, FORMAT_RULES[0].keywords)
    ensures ContainsAny(candyType, FORMAT_RULES[4].keywords)
    ensures ClassifyFormat(candyType) == "bar_wrapper"
  {
    ContainsAt(candyType, "chocolate", 0);
    assert candyType[10..17] == "caramel";
    ContainsAt(candyType, "caramel", 10);
    assert Contains(candyType, FORMAT_RULES[0].keywords[0]);
    assert Contains(candyType, FORMAT_RULES[4].keywords[1]);
  }

  // The branches of the chain stated on keywords: which keywords must be absent and which
  // one present for each format.

  /** A text containing "chocolate" or "bar" is classified `bar_wrapper`. */
  lemma BarWrapperByKeywords(candyType: string)
    requires Contains(candyType, "chocolate") || Contains(candyType, "bar")
    ensures ClassifyFormat(candyType) == "bar_wrapper"
  {
  }

  /** Without "chocolate" and "bar", a text with "hard", "mint" or "lozenge" is `tin_container`. */
  lemma TinContainerByKeywords(candyType: string)
    requires !Contains(candyType, "chocolate") && !Contains(candyType, "bar")
    requires Contains(candyType, "hard") || Contains(candyType, "mint") || Contains(candyType, "lozenge")
    ensures ClassifyFormat(candyType) == "tin_container"
  {
  }

  /** Without the keywords of the first two rules, a text with "gum" or "jelly" is `cellophane_bag`. */
  lemma CellophaneBagByKeywords(candyType: string)
    requires !Contains(candyType, "chocolate") && !Contains(candyType, "bar")
    requires !Contains(candyType, "hard") && !Contains(candyType, "mint") && !Contains(candyType, "lozenge")
    requires Contains(candyType, "gum") || Contains(candyType, "jelly")
    ensures ClassifyFormat(candyType) == "cellophane_bag"
  {
  }

  /** Without the keywords of the first three rules, a text with "assort" or "collection" is `box_and_sleeve`. */
  lemma BoxAndSleeveByKeywords(candyType: string)
    requires !Contains(candyType, "chocolate") && !Contains(candyType, "bar")
    requires !Contains(candyType, "hard") && !Contains(candyType, "mint") && !Contains(candyType, "lozenge")
    requires !Contains(candyType, "gum") && !Contains(candyType, "jelly")
    requires Contains(candyType, "assort") || Contains(candyType, "collection")
    ensures ClassifyFormat(candyType) == "box_and_sleeve"
  {
  }

  /** Without the keywords of the first four rules, a text with "taffy" or "caramel" is `twist_wrap`. */
  lemma TwistWrapByKeywords(candyType: string)
    requires !Contains(candyType, "chocolate") && !Contains(candyType, "bar")
    requires !Contains(candyType, "hard") && !Contains(candyType, "mint") && !Contains(candyType, "lozenge")
    requires !Contains(candyType, "gum") && !Contains(candyType, "jelly")
    requires !Contains(candyType, "assort") && !Contains(candyType, "collection")
    requires Contains(candyType, "taffy") || Contains(candyType, "caramel")
    ensures ClassifyFormat(candyType) == "twist_wrap"
  {
  }

  // Examples, each over a parameter fixed by its requires (a literal argument would make
  // the verifier unfold the substring search on it without bound).

  lemma MilkChocolateBar(candyType: string)
    requires candyType == "milk chocolate bar"
    ensures ClassifyFormat(candyType) == "bar_wrapper"
  {
    ContainsAt(candyType, "chocolate", 5);
  }

  /** Facts about the characters of "peppermint lozenge" that decide its classification. */
  lemma PeppermintLozengeLetters(candyType: string)
    requires candyType == "peppermint lozenge"
    ensures 'c' !in candyType && 'b' !in candyType
    ensures OccursAt(candyType, "mint", 6)
  {
  }

  lemma PeppermintLozenge(candyType: string)
    requires candyType == "peppermint lozenge"
    ensures ClassifyFormat(candyType) == "tin_container"
  {
    PeppermintLozengeLetters(candyType);
    NotContainsMissingChar(candyType, "chocolate", 0);
    NotContainsMissingChar(candyType, "bar", 0);
    ContainsAt(candyType, "mint", 6);
    TinContainerByKeywords(candyType);
  }

  /** Facts about the characters of "gummy jelly beans" that decide its classification. */
  lemma GummyJellyBeansLetters(candyType: string)
    requires candyType == "gummy jelly beans"
    ensures 'c' !in candyType && 'r' !in candyType && 'h' !in candyType
    ensures 'i' !in candyType && 'z' !in candyType
    ensures OccursAt(candyType, "gum", 0)
  {
  }

  /** A text with those character facts and "gum" at offset 0 is classified `cellophane_bag`. */
  lemma CellophaneBagByLetters(candyType: string)
    requires 'c' !in candyType && 'r' !in candyType && 'h' !in candyType
    requires 'i' !in candyType && 'z' !in candyType
    requires OccursAt(candyType, "gum", 0)
    ensures ClassifyFormat(candyType) == "cellophane_bag"
  {
    NotContainsMissingChar(candyType, "chocolate", 0);
    NotContainsMissingChar(candyType, "bar", 2);
    NotContainsMissingChar(candyType, "hard", 0);
    NotContainsMissingChar(candyType, "mint", 1);
    NotContainsMissingChar(candyType, "lozenge", 2);
    ContainsAt(candyType, "gum", 0);
    CellophaneBagByKeywords(candyType);
  }

  lemma GummyJellyBeans(candyType: string)
    requires candyType == "gummy jelly beans"
    ensures ClassifyFormat(candyType) == "cellophane_bag"
  {
    GummyJellyBeansLetters(candyType);
    CellophaneBagByLetters(candyType);
  }

  /** Characters "assorted collection box" lacks, for the first two rules. */
  lemma AssortedCollectionBoxMissingLetters(candyType: string)
    requires candyType == "assorted collection box"
    ensures 'h' !in candyType && 'm' !in candyType && 'z' !in candyType
  {
  }

  /** Characters "assorted collection box" lacks, for the third rule. */
  lemma AssortedCollectionBoxMissingGumLetters(candyType: string)
    requires candyType == "assorted collection box"
    ensures 'g' !in candyType && 'j' !in candyType
  {
  }

  /** For "bar" in "assorted collection box": no 'b' occurs before position 20 and no 'a' from position 18 on. */
  lemma AssortedCollectionBoxBarLetters(candyType: string)
    requires candyType == "assorted collection box"
    ensures |candyType| == 23 && 'b' !in candyType[..20] && 'a' !in candyType[18..]
  {
  }

  /** Facts about the characters of "assorted collection box" that decide its classification. */
  lemma AssortedCollectionBoxLetters(candyType: string)
    requires candyType == "assorted collection box"
    ensures 'h' !in candyType && 'm' !in candyType && 'z' !in candyType
    ensures 'g' !in candyType && 'j' !in candyType
    ensures |candyType| == 23 && 'b' !in candyType[..20] && 'a' !in candyType[18..]
    ensures OccursAt(candyType, "assort", 0)
  {
    AssortedCollectionBoxMissingLetters(candyType);
    AssortedCollectionBoxMissingGumLetters(candyType);
    AssortedCollectionBoxBarLetters(candyType);
  }

  /** A 23-character text with those character facts and "assort" at offset 0 is classified `box_and_sleeve`. */
  lemma BoxAndSleeveByLetters(candyType: string)
    requires 'h' !in candyType && 'm' !in candyType && 'z' !in candyType
    requires 'g' !in candyType && 'j' !in candyType
    requires |candyType| == 23 && 'b' !in candyType[..20] && 'a' !in candyType[18..]
    requires OccursAt(candyType, "assort", 0)
    ensures ClassifyFormat(candyType) == "box_and_sleeve"
  {
    NotContainsMissingChar(candyType, "chocolate", 1);
    NotContainsMissingChar(candyType[..20], "bar", 0);
    NotContainsMissingChar(candyType[18..], "bar", 1);
    NotContainsSplit(candyType, 18, "bar");
    NotContainsMissingChar(candyType, "hard", 0);
    NotContainsMissingChar(candyType, "mint", 0);
    NotContainsMissingChar(candyType, "lozenge", 2);
    NotContainsMissingChar(candyType, "gum", 0);
    NotContainsMissingChar(candyType, "jelly", 0);
    ContainsAt(candyType, "assort", 0);
    BoxAndSleeveByKeywords(candyType);
  }

  lemma AssortedCollectionBox(candyType: string)
    requires candyType == "assorted collection box"
    ensures ClassifyFormat(candyType) == "box_and_sleeve"
  {
    AssortedCollectionBoxLetters(candyType);
    BoxAndSleeveByLetters(candyType);
  }

  /** Characters "soft caramel taffy" lacks, for the first two rules. */
  lemma SoftCaramelTaffyMissingLetters(candyType: string)
    requires candyType == "soft caramel taffy"
    ensures 'h' !in candyType && 'b' !in candyType && 'i' !in candyType
  {
  }

  /** Characters "soft caramel taffy" lacks, for the third and fourth rules. */
  lemma SoftCaramelTaffyMissingGumLetters(candyType: string)
    requires candyType == "soft caramel taffy"
    ensures 'z' !in candyType && 'g' !in candyType && 'j' !in candyType
  {
  }

  /** For "assort" in "soft caramel taffy": no 'a' in the first six characters and no 's' after the first. */
  lemma SoftCaramelTaffyAssortLetters(candyType: string)
    requires candyType == "soft caramel taffy"
    ensures |candyType| == 18 && 'a' !in candyType[..6] && 's' !in candyType[1..]
  {
  }

  /** Facts about the characters of "soft caramel taffy" that decide its classification. */
  lemma SoftCaramelTaffyLetters(candyType: string)
    requires candyType == "soft caramel taffy"
    ensures 'h' !in candyType && 'b' !in candyType && 'i' !in candyType
    ensures 'z' !in candyType && 'g' !in candyType && 'j' !in candyType
    ensures |candyType| == 18 && 'a' !in candyType[..6] && 's' !in candyType[1..]
    ensures OccursAt(candyType, "caramel", 5)
  {
    SoftCaramelTaffyMissingLetters(candyType);
    SoftCaramelTaffyMissingGumLetters(candyType);
    SoftCaramelTaffyAssortLetters(candyType);
    assert candyType[5..12] == "caramel";
  }

  /** An 18-character text with those character facts and "caramel" at offset 5 is classified `twist_wrap`. */
  lemma TwistWrapByLetters(candyType: string)
    requires 'h' !in candyType && 'b' !in candyType && 'i' !in candyType
    requires 'z' !in candyType && 'g' !in candyType && 'j' !in candyType
    requires |candyType| == 18 && 'a' !in candyType[..6] && 's' !in candyType[1..]
    requires OccursAt(candyType, "caramel", 5)
    ensures ClassifyFormat(candyType) == "twist_wrap"
  {
    NotContainsMissingChar(candyType, "chocolate", 1);
    NotContainsMissingChar(candyType, "bar", 0);
    NotContainsMissingChar(candyType, "hard", 0);
    NotContainsMissingChar(candyType, "mint", 1);
    NotContainsMissingChar(candyType, "lozenge", 2);
    NotContainsMissingChar(candyType, "gum", 0);
    NotContainsMissingChar(candyType, "jelly", 0);
    NotContainsMissingChar(candyType[..6], "assort", 0);
    NotContainsMissingChar(candyType[1..], "assort", 1);
    NotContainsSplit(candyType, 1, "assort");
    NotContainsMissingChar(candyType, "collection", 7);
    ContainsAt(candyType, "caramel", 5);
    TwistWrapByKeywords(candyType);
  }

  lemma SoftCaramelTaffy(candyType: string)
    requires candyType == "soft caramel taffy"
    ensures ClassifyFormat(candyType) == "twist_wrap"
  {
    SoftCaramelTaffyLetters(candyType);
    TwistWrapByLetters(candyType);
  }

  lemma EmptyCandyType(candyType: string)
    requires candyType == ""
    ensures ClassifyFormat(candyType) == "bar_wrapper"
  {
  }

  /** Matching is case-sensitive: "mint" gives `tin_container`, "MINT" matches no rule. */
  lemma MatchingIsCaseSensitive(lower: string, upper: string)
    requires lower == "mint" && upper == "MINT"
    ensures ClassifyFormat(lower) == "tin_container"
    ensures ClassifyFormat(upper) == "bar_wrapper"
    ensures !ContainsAny(upper, FORMAT_RULES[1].keywords)
  {
    ContainsAt(lower, "mint", 0);
    NotContainsMissingChar(upper, "chocolate", 0);
    NotContainsMissingChar(upper, "bar", 0);
    NotContainsMissingChar(upper, "hard", 0);
    NotContainsMissingChar(upper, "mint", 0);
    NotContainsMissingChar(upper, "lozenge", 0);
    NotContainsMissingChar(upper, "gum", 0);
    NotContainsMissingChar(upper, "jelly", 0);
    NotContainsMissingChar(upper, "assort", 0);
    NotContainsMissingChar(upper, "collection", 0);
    NotContainsMissingChar(upper, "taffy", 0);
    NotContainsMissingChar(upper, "caramel", 0);
    ContainsAnyThree(upper, "hard", "mint", "lozenge");
  }
}
