/** Product match scoring and ranking (Backend/recommendation.py).

    `calculate_match_score` builds a score step by step from a colour bonus or
    penalty, a bonus per distinct shared style tag and a budget bonus or
    penalty, then clamps it to [0, 100]. `get_recommendations` scores every
    product, sorts the scored list by descending score with Python's stable
    sort, and keeps the first ten. The user profile, the product list and the
    explanation text come from helpers that the module does not define; here
    they are parameters. */
module Recommendation {
  import opened Strings
  import opened Catalogue

  datatype StyleDna = StyleDna(topStyleTags: seq<string>, formalityRange: string)

  datatype UserProfile = UserProfile(
    flatteringColors: seq<string>,
    colorsToAvoid: seq<string>,
    styleDna: StyleDna)

  datatype ShoppingIntent = ShoppingIntent(
    category: string,
    occasion: string,
    budget: int,
    stores: seq<string>,
    colorPreference: string)

  /** `{**product, "relevance_score": score, "reason": reason}` */
  datatype ScoredProduct = ScoredProduct(product: Product, relevanceScore: real, reason: string)

  /** Number of recommendations returned. */
  const TopCount: nat := 10

  // ---------------------------------------------------------------------------
  // The score, as a specification

  /** +30 for a flattering colour (checked first), -20 for a colour to avoid. */
  function ColorTerm(profile: UserProfile, product: Product): real {
    if product.color in profile.flatteringColors then 30.0
    else if product.color in profile.colorsToAvoid then -20.0
    else 0.0
  }

  /** `set(user_tags) & set(product_tags)` */
  function CommonTags(userTags: seq<string>, productTags: seq<string>): set<string> {
    (set t | t in userTags) * (set t | t in productTags)
  }

  function TagTerm(profile: UserProfile, product: Product): real {
    (|CommonTags(profile.styleDna.topStyleTags, product.styleTags)| * 10) as real
  }

  /** +20 within budget; otherwise minus one hundredth of the overrun. */
  function BudgetTerm(price: int, budget: int): real {
    if price <= budget then 20.0 else -((price - budget) as real / 100.0)
  }

  function Clamp(x: real): real {
    if x < 0.0 then 0.0 else if x > 100.0 then 100.0 else x
  }

  function RawScore(profile: UserProfile, product: Product, intent: ShoppingIntent): real {
    ColorTerm(profile, product) + TagTerm(profile, product) + BudgetTerm(product.price, intent.budget)
  }

  /** The value `calculate_match_score` returns. */
  function MatchScore(profile: UserProfile, product: Product, intent: ShoppingIntent): (s: real)
    ensures 0.0 <= s <= 100.0
    ensures 0.0 <= RawScore(profile, product, intent) <= 100.0 ==> s == RawScore(profile, product, intent)
  {
    Clamp(RawScore(profile, product, intent))
  }

  // ---------------------------------------------------------------------------
  // calculate_match_score

  method CalculateMatchScore(profile: UserProfile, product: Product, intent: ShoppingIntent)
    returns (score: real)
    ensures 0.0 <= score <= 100.0
    ensures score == MatchScore(profile, product, intent)
  {
    score := 0.0;
    if product.color in profile.flatteringColors {
      score := score + 30.0;
    } else if product.color in profile.colorsToAvoid {
      score := score - 20.0;
    }
    var userTags := profile.styleDna.topStyleTags;
    var productTags := product.styleTags;
    var commonTags := (set t | t in userTags) * (set t | t in productTags);
    score := score + (|commonTags| * 10) as real;
    if product.price <= intent.budget {
      score := score + 20.0;
    } else {
      score := score - (product.price - intent.budget) as real / 100.0;
    }
    var userFormality := profile.styleDna.formalityRange;  // read, never used
    score := if score < 0.0 then 0.0 else score;
    score := if score > 100.0 then 100.0 else score;
  }

  // ---------------------------------------------------------------------------
  // Properties of the score

  /** A flattering colour earns exactly +30 even when it is also listed to be
      avoided; a colour only to be avoided costs exactly 20; any other colour
      contributes nothing. */
  lemma ColorTermCases(profile: UserProfile, product: Product, intent: ShoppingIntent)
    ensures product.color in profile.flatteringColors ==>
      RawScore(profile, product, intent) == 30.0 + TagTerm(profile, product) + BudgetTerm(product.price, intent.budget)
    ensures product.color !in profile.flatteringColors && product.color in profile.colorsToAvoid ==>
      RawScore(profile, product, intent) == -20.0 + TagTerm(profile, product) + BudgetTerm(product.price, intent.budget)
    ensures product.color !in profile.flatteringColors && product.color !in profile.colorsToAvoid ==>
      RawScore(profile, product, intent) == TagTerm(profile, product) + BudgetTerm(product.price, intent.budget)
  {
  }

  /** Listing a flattering colour also among the colours to avoid does not
      change any score. */
  lemma FlatteringOverridesAvoid(profile: UserProfile, product: Product, intent: ShoppingIntent)
    requires product.color in profile.flatteringColors
    ensures MatchScore(profile.(colorsToAvoid := profile.colorsToAvoid + [product.color]), product, intent)
         == MatchScore(profile, product, intent)
  {
  }

  /** The distinct elements of a list are no more than its length. */
  lemma {:induction false} DistinctAtMostLength(s: seq<string>)
    ensures |set t | t in s| <= |s|
  {
    if s != [] {
      DistinctAtMostLength(s[1..]);
      assert (set t | t in s) == (set t | t in s[1..]) + {s[0]};
    }
  }

  /** The tag bonus is ten per shared tag and never exceeds ten per distinct
      tag the product carries. */
  lemma TagTermBounded(profile: UserProfile, product: Product)
    ensures 0.0 <= TagTerm(profile, product) <= (10 * |product.styleTags|) as real
  {
    var productSet := set t | t in product.styleTags;
    var common := CommonTags(profile.styleDna.topStyleTags, product.styleTags);
    assert common <= productSet;
    assert productSet == common + (productSet - common);
    assert |productSet| == |common| + |productSet - common|;
    DistinctAtMostLength(product.styleTags);
  }

  /** Repeating a tag in the user's top tags is never counted twice. */
  lemma DuplicateTagIgnored(profile: UserProfile, product: Product, intent: ShoppingIntent, tag: string)
    requires tag in profile.styleDna.topStyleTags
    ensures var repeated := profile.(styleDna := profile.styleDna.(topStyleTags := profile.styleDna.topStyleTags + [tag]));
      MatchScore(repeated, product, intent) == MatchScore(profile, product, intent)
  {
    var tags := profile.styleDna.topStyleTags;
    assert (set t | t in tags + [tag]) == (set t | t in tags);
  }

  /** Within budget the product earns exactly +20; over budget it loses one
      hundredth of the overrun, so the penalty grows with the overrun. */
  lemma BudgetTermCases(price: int, budget: int)
    ensures price <= budget ==> BudgetTerm(price, budget) == 20.0
    ensures price > budget ==> BudgetTerm(price, budget) == -((price - budget) as real) / 100.0
    ensures price > budget ==> BudgetTerm(price, budget) < 0.0
  {
  }

  /** A dearer product never scores higher than an otherwise identical
      cheaper one. */
  lemma ScoreNonIncreasingInPrice(profile: UserProfile, product: Product, intent: ShoppingIntent, dearer: int)
    requires product.price <= dearer
    ensures MatchScore(profile, product.(price := dearer), intent) <= MatchScore(profile, product, intent)
  {
    assert BudgetTerm(dearer, intent.budget) <= BudgetTerm(product.price, intent.budget);
  }

  /** `formality_range` is read but never affects the score. */
  lemma FormalityRangeIgnored(profile: UserProfile, product: Product, intent: ShoppingIntent, range: string)
    ensures MatchScore(profile.(styleDna := profile.styleDna.(formalityRange := range)), product, intent)
         == MatchScore(profile, product, intent)
  {
  }

  // ---------------------------------------------------------------------------
  // Stable sort by descending score (Python's `list.sort(key=..., reverse=True)`)

  predicate SortedByScore(s: seq<ScoredProduct>) {
    forall i, j :: 0 <= i < j < |s| ==> s[i].relevanceScore >= s[j].relevanceScore
  }

  /** The entries of `s` whose score is `k`, in their order in `s`. */
  function WithScore(s: seq<ScoredProduct>, k: real): seq<ScoredProduct> {
    if s == [] then []
    else (if s[0].relevanceScore == k then [s[0]] else []) + WithScore(s[1..], k)
  }

  /** Puts `x` in front of the first entry that does not score higher. */
  function Insert(x: ScoredProduct, s: seq<ScoredProduct>): (r: seq<ScoredProduct>)
    ensures |r| == |s| + 1
  {
    if s == [] || x.relevanceScore >= s[0].relevanceScore then [x] + s
    else [s[0]] + Insert(x, s[1..])
  }

  function SortByScore(s: seq<ScoredProduct>): (r: seq<ScoredProduct>)
    ensures |r| == |s|
  {
    if s == [] then [] else Insert(s[0], SortByScore(s[1..]))
  }

  lemma {:induction false} InsertPermutes(x: ScoredProduct, s: seq<ScoredProduct>)
    ensures multiset(Insert(x, s)) == multiset([x] + s)
  {
    if s != [] && x.relevanceScore < s[0].relevanceScore {
      InsertPermutes(x, s[1..]);
      assert [x] + s == [x] + [s[0]] + s[1..];
      assert s == [s[0]] + s[1..];
    }
  }

  lemma {:induction false} InsertSorted(x: ScoredProduct, s: seq<ScoredProduct>)
    requires SortedByScore(s)
    ensures SortedByScore(Insert(x, s))
  {
    if s != [] && x.relevanceScore < s[0].relevanceScore {
      var rest := s[1..];
      InsertSorted(x, rest);
      InsertPermutes(x, rest);
      var r := Insert(x, s);
      assert r[1..] == Insert(x, rest);
      forall j | 0 < j < |r| ensures r[0].relevanceScore >= r[j].relevanceScore {
        assert r[j] in multiset(Insert(x, rest));
        assert r[j] in multiset([x] + rest);
      }
    }
  }

  /** Inserting `x` never moves it past an entry of the same score. */
  lemma {:induction false} InsertStable(x: ScoredProduct, s: seq<ScoredProduct>, k: real)
    ensures WithScore(Insert(x, s), k) == WithScore([x] + s, k)
  {
    if s != [] && x.relevanceScore < s[0].relevanceScore {
      var rest := s[1..];
      InsertStable(x, rest, k);
      var r := Insert(x, s);
      assert r[1..] == Insert(x, rest);
      assert ([x] + rest)[1..] == rest;
      assert ([x] + s)[1..] == s;
    }
  }

  /** The sort orders by non-increasing score, permutes its input, and keeps
      entries of equal score in their input order (stability). */
  lemma {:induction false} SortCorrect(s: seq<ScoredProduct>)
    ensures SortedByScore(SortByScore(s))
    ensures multiset(SortByScore(s)) == multiset(s)
    ensures forall k :: WithScore(SortByScore(s), k) == WithScore(s, k)
  {
    if s != [] {
      var sortedRest := SortByScore(s[1..]);
      SortCorrect(s[1..]);
      InsertSorted(s[0], sortedRest);
      InsertPermutes(s[0], sortedRest);
      assert [s[0]] + s[1..] == s;
      forall k ensures WithScore(SortByScore(s), k) == WithScore(s, k) {
        InsertStable(s[0], sortedRest, k);
        assert ([s[0]] + sortedRest)[1..] == sortedRest;
      }
    }
  }

  // ---------------------------------------------------------------------------
  // get_recommendations

  function Scored(profile: UserProfile, product: Product, intent: ShoppingIntent,
                  explain: (UserProfile, Product, real) -> string): ScoredProduct
  {
    var score := MatchScore(profile, product, intent);
    ScoredProduct(product, score, explain(profile, product, score))
  }

  /** The list `scored_products` holds after the scoring loop. */
  function ScoreAll(profile: UserProfile, products: seq<Product>, intent: ShoppingIntent,
                    explain: (UserProfile, Product, real) -> string): (r: seq<ScoredProduct>)
    ensures |r| == |products|
    ensures forall i :: 0 <= i < |products| ==>
      && r[i].product == products[i]
      && r[i].relevanceScore == MatchScore(profile, products[i], intent)
      && r[i].reason == explain(profile, products[i], r[i].relevanceScore)
  {
    seq(|products|, i requires 0 <= i < |products| => Scored(profile, products[i], intent, explain))
  }

  /** `get_recommendations`, with the user's profile, the products and the
      explanation generator supplied by the caller. */
  method GetRecommendations(profile: UserProfile, products: seq<Product>, intent: ShoppingIntent,
                            explain: (UserProfile, Product, real) -> string)
    returns (top: seq<ScoredProduct>)
    ensures |top| == Min(TopCount, |products|)
    ensures SortedByScore(top)
    ensures top == SortByScore(ScoreAll(profile, products, intent, explain))[..|top|]
    ensures forall e :: e in top ==>
      && e.product in products
      && e.relevanceScore == MatchScore(profile, e.product, intent)
      && e.reason == explain(profile, e.product, e.relevanceScore)
  {
    var scoredProducts: seq<ScoredProduct> := [];
    for i := 0 to |products|
      invariant |scoredProducts| == i
      invariant forall j :: 0 <= j < i ==> scoredProducts[j] == Scored(profile, products[j], intent, explain)
    {
      var product := products[i];
      var score := CalculateMatchScore(profile, product, intent);
      var reason := explain(profile, product, score);
      scoredProducts := scoredProducts + [ScoredProduct(product, score, reason)];
    }
    ghost var all := ScoreAll(profile, products, intent, explain);
    assert scoredProducts == all;
    SortCorrect(scoredProducts);
    scoredProducts := SortByScore(scoredProducts);
    assert |scoredProducts| == |multiset(scoredProducts)| == |products|;
    top := scoredProducts[..Min(TopCount, |scoredProducts|)];
    forall e | e in top
      ensures e.product in products
      ensures e.relevanceScore == MatchScore(profile, e.product, intent)
      ensures e.reason == explain(profile, e.product, e.relevanceScore)
    {
      assert e in multiset(scoredProducts);
      assert e in all;
    }
  }

  /** Every recommendation scores at least as high as every product the
      truncation dropped. */
  lemma {:induction false} KeptOutscoreDropped(profile: UserProfile, products: seq<Product>, intent: ShoppingIntent,
                                              explain: (UserProfile, Product, real) -> string, i: nat, j: nat)
    requires var ranked := SortByScore(ScoreAll(profile, products, intent, explain));
      i < TopCount <= j < |ranked|
    ensures var ranked := SortByScore(ScoreAll(profile, products, intent, explain));
      ranked[i].relevanceScore >= ranked[j].relevanceScore
  {
    SortCorrect(ScoreAll(profile, products, intent, explain));
  }
}
