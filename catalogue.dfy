/** The mock store catalogues of Backend/scraper.py. Each generator is one
    list comprehension over `range(max_results)`: product `i` is fixed by the
    query and `i` alone, with prices rising linearly in `i` and colours and
    style tags cycling with `i mod 3`. No network access happens. */
module Catalogue {
  import opened Strings

  /** Myntra products carry a list of seasons, Amazon products a single one. */
  datatype Seasonality = SeasonList(seasons: seq<string>) | SingleSeason(season: string)

  datatype Product = Product(
    store: string,
    productId: string,
    title: string,
    price: int,
    imageUrl: string,
    productUrl: string,
    category: string,
    color: string,
    styleTags: seq<string>,
    formalityLevel: int,
    seasonality: Seasonality,
    brand: string)

  /** Default of the `max_results` parameter of both generators. */
  const DefaultMaxResults: int := 20

  const MyntraColors: seq<string> := ["pink", "white", "black"]
  const MyntraTags: seq<string> := ["casual", "minimalist", "trendy"]
  const AmazonColors: seq<string> := ["blue", "red", "green"]
  const AmazonTags: seq<string> := ["classic", "formal", "elegant"]

  /** `len(range(n))`: a negative count gives no products. */
  function RangeLength(maxResults: int): nat {
    if maxResults < 0 then 0 else maxResults
  }

  function MyntraProduct(query: string, i: nat): Product {
    Product(
      "myntra",
      "myntra_" + NatToString(i),
      "Women's " + query + " - Style " + NatToString(i),
      500 + i * 200,
      "https://via.placeholder.com/300x400/ec4899/ffffff?text=" + query + "+" + NatToString(i),
      "https://www.myntra.com/" + query + "-" + NatToString(i),
      "top",
      MyntraColors[i % 3],
      MyntraTags[..i % 3 + 1],
      3,
      SeasonList(["all-season"]),
      "Brand X")
  }

  function AmazonProduct(query: string, i: nat): Product {
    Product(
      "amazon",
      "amazon_" + NatToString(i),
      "Amazon Fashion " + query + " - Option " + NatToString(i),
      300 + i * 150,
      "https://via.placeholder.com/300x400/3b82f6/ffffff?text=Amazon+" + query + "+" + NatToString(i),
      "https://www.amazon.in/" + query + "-" + NatToString(i),
      "dress",
      AmazonColors[i % 3],
      AmazonTags[..i % 3 + 1],
      7,
      SingleSeason(["winter", "summer"][i % 2]),
      "Brand Y")
  }

  /** `scrape_myntra_search(query, max_results)` */
  function ScrapeMyntraSearch(query: string, maxResults: int := DefaultMaxResults): (r: seq<Product>)
    ensures |r| == RangeLength(maxResults)
  {
    seq(RangeLength(maxResults), i requires 0 <= i => MyntraProduct(query, i))
  }

  /** `scrape_amazon_search(query, max_results)` */
  function ScrapeAmazonSearch(query: string, maxResults: int := DefaultMaxResults): (r: seq<Product>)
    ensures |r| == RangeLength(maxResults)
  {
    seq(RangeLength(maxResults), i requires 0 <= i => AmazonProduct(query, i))
  }

  /** Called without `max_results`, each store yields twenty products. */
  lemma DefaultCatalogueSize(query: string)
    ensures |ScrapeMyntraSearch(query)| == 20
    ensures |ScrapeAmazonSearch(query)| == 20
  {
  }

  // ---------------------------------------------------------------------------
  // Properties of the Myntra catalogue

  /** What every Myntra product looks like: the id and price formula, the
      colour and tag prefix chosen by `i mod 3`, and the per-store constants. */
  lemma MyntraProductShape(query: string, maxResults: int, i: nat)
    requires i < |ScrapeMyntraSearch(query, maxResults)|
    ensures var p := ScrapeMyntraSearch(query, maxResults)[i];
      && p.store == "myntra" && p.brand == "Brand X"
      && p.productId == "myntra_" + NatToString(i)
      && p.price == 500 + 200 * i && p.price >= 500
      && p.color == ["pink", "white", "black"][i % 3]
      && p.styleTags == ["casual", "minimalist", "trendy"][..i % 3 + 1]
      && 1 <= |p.styleTags| <= 3
      && p.category == "top" && p.formalityLevel == 3
      && p.seasonality == SeasonList(["all-season"])
  {
  }

  /** Product ids are pairwise distinct within one call. */
  lemma MyntraIdsDistinct(query: string, maxResults: int, i: nat, j: nat)
    requires i < j < |ScrapeMyntraSearch(query, maxResults)|
    ensures ScrapeMyntraSearch(query, maxResults)[i].productId
         != ScrapeMyntraSearch(query, maxResults)[j].productId
  {
    if ScrapeMyntraSearch(query, maxResults)[i].productId
       == ScrapeMyntraSearch(query, maxResults)[j].productId {
      PrefixedNatInjective("myntra_", i, j);
    }
  }

  /** Prices strictly increase along the list. */
  lemma MyntraPricesIncrease(query: string, maxResults: int, i: nat, j: nat)
    requires i < j < |ScrapeMyntraSearch(query, maxResults)|
    ensures ScrapeMyntraSearch(query, maxResults)[i].price
          < ScrapeMyntraSearch(query, maxResults)[j].price
  {
  }

  /** Asking for fewer results gives a prefix of the longer list: product `i`
      does not depend on `max_results`. */
  lemma MyntraPrefixStable(query: string, m: int, n: int)
    requires m <= n
    ensures ScrapeMyntraSearch(query, m) <= ScrapeMyntraSearch(query, n)
  {
  }

  // ---------------------------------------------------------------------------
  // Properties of the Amazon catalogue

  lemma AmazonProductShape(query: string, maxResults: int, i: nat)
    requires i < |ScrapeAmazonSearch(query, maxResults)|
    ensures var p := ScrapeAmazonSearch(query, maxResults)[i];
      && p.store == "amazon" && p.brand == "Brand Y"
      && p.productId == "amazon_" + NatToString(i)
      && p.price == 300 + 150 * i && p.price >= 300
      && p.color == ["blue", "red", "green"][i % 3]
      && p.styleTags == ["classic", "formal", "elegant"][..i % 3 + 1]
      && 1 <= |p.styleTags| <= 3
      && p.category == "dress" && p.formalityLevel == 7
      && p.seasonality == SingleSeason(if i % 2 == 0 then "winter" else "summer")
  {
  }

  lemma AmazonIdsDistinct(query: string, maxResults: int, i: nat, j: nat)
    requires i < j < |ScrapeAmazonSearch(query, maxResults)|
    ensures ScrapeAmazonSearch(query, maxResults)[i].productId
         != ScrapeAmazonSearch(query, maxResults)[j].productId
  {
    if ScrapeAmazonSearch(query, maxResults)[i].productId
       == ScrapeAmazonSearch(query, maxResults)[j].productId {
      PrefixedNatInjective("amazon_", i, j);
    }
  }

  lemma AmazonPricesIncrease(query: string, maxResults: int, i: nat, j: nat)
    requires i < j < |ScrapeAmazonSearch(query, maxResults)|
    ensures ScrapeAmazonSearch(query, maxResults)[i].price
          < ScrapeAmazonSearch(query, maxResults)[j].price
  {
  }

  lemma AmazonPrefixStable(query: string, m: int, n: int)
    requires m <= n
    ensures ScrapeAmazonSearch(query, m) <= ScrapeAmazonSearch(query, n)
  {
  }

  /** The two stores never share a product id. */
  lemma StoresNeverShareIds(query: string, maxResults: int, i: nat, j: nat)
    requires i < |ScrapeMyntraSearch(query, maxResults)|
    requires j < |ScrapeAmazonSearch(query, maxResults)|
    ensures ScrapeMyntraSearch(query, maxResults)[i].productId
         != ScrapeAmazonSearch(query, maxResults)[j].productId
  {
    assert ScrapeMyntraSearch(query, maxResults)[i].productId[0] == 'm';
    assert ScrapeAmazonSearch(query, maxResults)[j].productId[0] == 'a';
  }
}
