/**
 * Default listing images (`generateDefaultImageUrl`): a second search tag
 * chosen by keyword priority from the lower-cased food name, and a lock seed
 * from a 32-bit string hash of the name as given.
 */
module ImageGenerator {
  import opened Wrappers
  import opened JsText
  import opened JsMath

  /** One reducer step: `a = ((a << 5) - a) + b.charCodeAt(0); return a & a`. */
  function HashStep(a: int, code: int): (r: int)
    ensures IsInt32(r)
  {
    ToInt32(ToInt32(a * 32) - a + code)
  }

  /** The step is multiplication by 31 and addition, modulo 2^32. */
  lemma HashStepIsTimes31(a: int, code: int)
    ensures HashStep(a, code) == ToInt32(31 * a + code)
  {
    var shifted := ToInt32(a * 32);
    assert (a * 32 - shifted) % TwoTo32 == 0;
    ScaleMultiple(a * 32 - shifted, -1);
    assert (shifted - a + code) - (31 * a + code) == -1 * (a * 32 - shifted);
    ToInt32Congruent(shifted - a + code, 31 * a + code);
  }

  /** The hash of a sequence of UTF-16 code units, folded from the left starting at 0. */
  function Hash(units: seq<int>): (h: int)
    ensures IsInt32(h)
  {
    if |units| == 0 then 0 else HashStep(Hash(units[..|units| - 1]), units[|units| - 1])
  }

  /** The same hash without wrap-around: `Σ units[i]·31^(n−1−i)`. */
  function Polynomial(units: seq<int>): int {
    if |units| == 0 then 0 else 31 * Polynomial(units[..|units| - 1]) + units[|units| - 1]
  }

  /** The hash is the 32-bit reduction of the polynomial: wrapping after every
      step gives the same result as wrapping once at the end. */
  lemma {:induction false} HashIsPolynomial(units: seq<int>)
    ensures Hash(units) == ToInt32(Polynomial(units))
  {
    if |units| > 0 {
      var init, last := units[..|units| - 1], units[|units| - 1];
      HashIsPolynomial(init);
      var p := Polynomial(init);
      HashStepIsTimes31(Hash(init), last);
      assert (p - ToInt32(p)) % TwoTo32 == 0;
      ScaleMultiple(p - ToInt32(p), -31);
      assert (31 * ToInt32(p) + last) - (31 * p + last) == -31 * (p - ToInt32(p));
      ToInt32Congruent(31 * ToInt32(p) + last, 31 * p + last);
    }
  }

  /** `Math.abs(hash % 1000)`. */
  function Seed(foodName: string): (seed: int)
    ensures 0 <= seed <= 999
    ensures seed == Abs(Rem(ToInt32(Polynomial(CodeUnits(foodName))), 1000))
  {
    HashIsPolynomial(CodeUnits(foodName));
    Abs(Rem(Hash(CodeUnits(foodName)), 1000))
  }

  /** A keyword group and the tag it selects. */
  datatype TagRule = TagRule(keywords: seq<string>, tag: string)

  /** The keyword groups in the order they are tried. */
  const TagRules: seq<TagRule> := [
    TagRule(["chaap", "soya"], "curry"),
    TagRule(["biryani", "rice"], "rice"),
    TagRule(["bread", "roti", "naan"], "bread"),
    TagRule(["pasta", "noodle"], "pasta"),
    TagRule(["pizza"], "pizza"),
    TagRule(["burger"], "burger"),
    TagRule(["fruit"], "fruit"),
    TagRule(["cake", "pastry", "sweet"], "dessert"),
    TagRule(["grocery", "veg"], "vegetables")
  ]

  const DefaultTag: string := "meal"
  const BaseTag: string := "food"

  /** Some keyword of the group occurs in the name. */
  predicate Mentions(name: string, rule: TagRule) {
    exists k :: 0 <= k < |rule.keywords| && Includes(name, rule.keywords[k])
  }

  /** The index of the first group (from `from` on) that the name mentions,
      or `|TagRules|` when none does. */
  function FirstRule(name: string, from: nat): (i: nat)
    requires from <= |TagRules|
    ensures from <= i <= |TagRules|
    ensures i < |TagRules| ==> Mentions(name, TagRules[i])
    ensures forall j :: from <= j < i ==> !Mentions(name, TagRules[j])
    decreases |TagRules| - from
  {
    if from == |TagRules| then from
    else if Mentions(name, TagRules[from]) then from
    else FirstRule(name, from + 1)
  }

  /** The second tag: the first mentioned group's tag, else `meal`. */
  function ChooseTag(name: string): (tag: string)
    ensures tag == DefaultTag <==> forall j :: 0 <= j < |TagRules| ==> !Mentions(name, TagRules[j])
    ensures tag != DefaultTag ==>
      exists i :: 0 <= i < |TagRules| && tag == TagRules[i].tag && Mentions(name, TagRules[i])
               && forall j :: 0 <= j < i ==> !Mentions(name, TagRules[j])
  {
    var i := FirstRule(name, 0);
    if i < |TagRules| then TagRules[i].tag else DefaultTag
  }

  /** `(foodName || 'food').toLowerCase()`: an absent or empty name reads as `food`. */
  function TagName(foodName: Option<string>): (name: string)
    ensures foodName.None? || foodName == Some("") ==> name == "food"
    ensures foodName.Some? && foodName.value != "" ==> name == AsciiLower(foodName.value)
  {
    if foodName.None? || foodName.value == "" then "food" else AsciiLower(foodName.value)
  }

  /** The string the seed is hashed from: the default `food` only when the
      argument is absent, so an empty name hashes as the empty string. */
  function HashedName(foodName: Option<string>): (s: string)
    ensures foodName.Some? ==> s == foodName.value
  {
    foodName.GetOr("food")
  }

  function Tags(foodName: Option<string>): (tags: seq<string>)
    ensures |tags| == 2 && tags[0] == BaseTag
    ensures tags[1] == ChooseTag(TagName(foodName))
  {
    [BaseTag, ChooseTag(TagName(foodName))]
  }

  lemma JoinPair(parts: seq<string>, sep: string)
    requires |parts| == 2
    ensures Join(parts, sep) == parts[0] + sep + parts[1]
  {
    assert parts[1..] == [parts[1]];
  }

  const UrlPrefix: string := "https://loremflickr.com/800/600/"

  /** The URL template with the second tag and the lock value filled in. */
  function ImageUrl(tag: string, lock: string): (url: string)
    ensures url == UrlPrefix + BaseTag + "," + tag + "?lock=" + lock
  {
    JoinPair([BaseTag, tag], ",");
    UrlPrefix + Join([BaseTag, tag], ",") + "?lock=" + lock
  }

  /** `generateDefaultImageUrl(foodName, category)`; `category` plays no part. */
  function GenerateDefaultImageUrl(foodName: Option<string>, category: Option<string>): (url: string)
    ensures url == UrlPrefix + BaseTag + "," + ChooseTag(TagName(foodName))
                   + "?lock=" + Decimal(Seed(HashedName(foodName)))
  {
    ImageUrl(Tags(foodName)[1], Decimal(Seed(HashedName(foodName))))
  }

  /** The URL depends on the food name alone. */
  lemma CategoryIgnored(foodName: Option<string>, c1: Option<string>, c2: Option<string>)
    ensures GenerateDefaultImageUrl(foodName, c1) == GenerateDefaultImageUrl(foodName, c2)
  {
  }

  /** Reading the `lock` parameter back from the end of the URL gives the seed. */
  lemma LockReadsBack(foodName: Option<string>, category: Option<string>)
    ensures var url := GenerateDefaultImageUrl(foodName, category);
      var lock := Decimal(Seed(HashedName(foodName)));
      && 1 <= |lock| <= 3
      && url[|url| - |lock|..] == lock
      && ParseDecimal(url[|url| - |lock|..]) == Seed(HashedName(foodName))
  {
    var seed := Seed(HashedName(foodName));
    var lock := Decimal(seed);
    ParseDecimalOfDecimal(seed);
    DecimalAtMostThreeDigits(seed);
    var url := GenerateDefaultImageUrl(foodName, category);
    assert url == (UrlPrefix + BaseTag + "," + ChooseTag(TagName(foodName)) + "?lock=") + lock;
  }

  lemma DecimalAtMostThreeDigits(n: nat)
    requires n <= 999
    ensures |Decimal(n)| <= 3
  {
    if n >= 10 {
      assert Decimal(n) == Decimal(n / 10) + [DigitChar(n % 10)];
      if n >= 100 {
        assert Decimal(n / 10) == Decimal(n / 100) + [DigitChar(n / 10 % 10)];
      }
    }
  }

  lemma ExampleLowered()
    ensures AsciiLower("veg chaap roll") == "veg chaap roll"
  {
    AsciiLowerKeepsLower("veg chaap roll");
  }

  lemma ExampleMentions()
    ensures Includes("veg chaap roll", "veg")
    ensures Includes("veg chaap roll", "chaap")
  {
    assert "veg chaap roll"[0..3] == "veg";
    IncludesAt("veg chaap roll", "veg", 0);
    assert "veg chaap roll"[4..9] == "chaap";
    IncludesAt("veg chaap roll", "chaap", 4);
  }

  lemma ExampleMentionsCurry()
    ensures Mentions("veg chaap roll", TagRules[0])
  {
    ExampleMentions();
    assert TagRules[0].keywords[0] == "chaap";
  }

  lemma ExampleMentionsVegetables()
    ensures Mentions("veg chaap roll", TagRules[8])
  {
    ExampleMentions();
    assert TagRules[8].keywords[1] == "veg";
  }

  /** Priority decides between several matches: "veg chaap roll" mentions both
      `veg` and `chaap`, and the earlier group wins. */
  lemma PriorityExample()
    ensures Mentions(TagName(Some("veg chaap roll")), TagRules[8])
    ensures ChooseTag(TagName(Some("veg chaap roll"))) == "curry"
  {
    ExampleLowered();
    ExampleMentionsCurry();
    ExampleMentionsVegetables();
  }

  lemma FoodCodeUnits()
    ensures CodeUnits("food") == [102, 111, 111, 100]
  {
    assert "food"[..3] == "foo";
    assert "foo"[..2] == "fo";
    assert "fo"[..1] == "f";
  }

  lemma FoodPolynomial()
    ensures Polynomial([102, 111, 111, 100]) == 3148894
  {
    assert [102, 111, 111, 100][..3] == [102, 111, 111];
    assert [102, 111, 111][..2] == [102, 111];
    assert [102, 111][..1] == [102];
  }

  /** An empty name is tagged as `food` but hashed as the empty string, so its
      seed is 0, while an absent name hashes `food` to seed 894. */
  lemma EmptyAndAbsentNames()
    ensures TagName(Some("")) == TagName(None) == "food"
    ensures Seed(HashedName(Some(""))) == 0
    ensures Seed(HashedName(None)) == 894
  {
    assert CodeUnits("") == [];
    FoodCodeUnits();
    FoodPolynomial();
    ToInt32OfInt32(3148894);
  }
}
