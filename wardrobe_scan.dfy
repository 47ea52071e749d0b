/** The wardrobe-scan onboarding page (FRONT/app/onboarding/wardrobe-scan/page.tsx).

    The page keeps two upload lists, summer and winter, each capped at ten
    files. Analysing needs at least ten files in all; it then builds one mock
    item per file, summer items first, with attributes cycling by the file's
    index `mod 3`, and a timer later installs a fixed mock Style DNA. React
    state updates are modelled as sequential assignments to fields. */
module WardrobeScan {
  import opened Strings
  import opened Uploads

  datatype Season = Summer | Winter

  datatype WardrobeItem = WardrobeItem(
    id: string,
    category: string,
    subcategory: string,
    primaryColor: string,
    pattern: string,
    fit: string,
    formalityLevel: int,
    styleTags: seq<string>,
    season: Season)

  datatype StyleDna = StyleDna(
    dominantAesthetics: seq<string>,
    preferredFit: string,
    colorPreferences: seq<string>,
    patternAffinity: string,
    formalityRange: string,
    riskTakingScore: int,
    missingCategories: seq<string>,
    styleSummary: string,
    topStyleTags: seq<string>)

  /** Cap on each seasonal upload list. */
  const MaxFilesPerSeason: nat := 10
  /** Files needed in all before analysing. */
  const MinTotalItems: nat := 10

  /** The Style DNA the page shows after analysing, whatever was uploaded. */
  const MockStyleDna: StyleDna := StyleDna(
    ["Minimalist", "Classic"],
    "Mixed",
    ["Navy Blue", "Black", "White", "Grey"],
    "Low",
    "Casual to Smart-Casual",
    3,
    ["Statement Jewelry", "Evening Wear"],
    "You prefer clean, minimalist basics in neutral colors. Your style is practical yet polished with a focus on comfort and versatility.",
    ["minimalist", "classic", "neutral", "comfortable", "versatile"])

  // ---------------------------------------------------------------------------
  // Pure pieces of the handlers

  /** `[...prev, ...acceptedFiles.slice(0, 10 - prev.length)]`: the old list
      stays in front and only as many new files as fit under the cap are
      appended, taken from the front of the drop. */
  function CappedAppend(prev: seq<File>, accepted: seq<File>): (r: seq<File>)
    ensures prev <= r
    ensures |prev| <= MaxFilesPerSeason ==> |r| == Min(MaxFilesPerSeason, |prev| + |accepted|)
    ensures |prev| <= MaxFilesPerSeason ==> r[|prev|..] <= accepted
  {
    prev + SliceTo(accepted, MaxFilesPerSeason - |prev|)
  }

  /** The number shown in "(k more needed)": how many files are missing. */
  function ItemsNeeded(total: nat): nat {
    if total < MinTotalItems then MinTotalItems - total else 0
  }

  function ShortfallMessage(total: nat): string {
    "Please upload at least 10 items total (" + NatToString(ItemsNeeded(total)) + " more needed)"
  }

  /** The `disabled` expression of the analyse button. */
  predicate AnalyzeDisabled(isAnalyzing: bool, summerCount: nat, winterCount: nat) {
    isAnalyzing || summerCount + winterCount < MinTotalItems
  }

  /** The button is disabled exactly while an analysis runs or while the
      shortfall message would name a positive number of missing files. */
  lemma DisabledIffBusyOrShort(isAnalyzing: bool, summerCount: nat, winterCount: nat)
    ensures AnalyzeDisabled(isAnalyzing, summerCount, winterCount)
        <==> isAnalyzing || ItemsNeeded(summerCount + winterCount) > 0
    ensures summerCount + winterCount < MinTotalItems ==>
      1 <= ItemsNeeded(summerCount + winterCount) <= MinTotalItems
      && summerCount + winterCount + ItemsNeeded(summerCount + winterCount) == MinTotalItems
  {
  }

  function SummerItem(index: nat): WardrobeItem {
    WardrobeItem(
      "summer-" + NatToString(index),
      ["top", "bottom", "dress"][index % 3],
      ["t-shirt", "jeans", "midi-dress"][index % 3],
      ["navy blue", "white", "pastel pink"][index % 3],
      "solid",
      ["oversized", "fitted", "regular"][index % 3],
      [2, 5, 7][index % 3],
      ["minimalist", "casual"],
      Summer)
  }

  function WinterItem(index: nat): WardrobeItem {
    WardrobeItem(
      "winter-" + NatToString(index),
      ["top", "bottom", "outerwear"][index % 3],
      ["sweater", "trousers", "coat"][index % 3],
      ["black", "grey", "burgundy"][index % 3],
      "solid",
      ["fitted", "regular", "oversized"][index % 3],
      [4, 6, 8][index % 3],
      ["classic", "minimalist"],
      Winter)
  }

  /** `[...summerFiles.map(...), ...winterFiles.map(...)]`; the files' contents
      are never looked at, only their positions. */
  function MockItems(summerFiles: seq<File>, winterFiles: seq<File>): (r: seq<WardrobeItem>)
    ensures |r| == |summerFiles| + |winterFiles|
    ensures forall k :: 0 <= k < |summerFiles| ==> r[k].season == Summer
    ensures forall k :: |summerFiles| <= k < |r| ==> r[k].season == Winter
  {
    seq(|summerFiles|, i requires 0 <= i => SummerItem(i))
      + seq(|winterFiles|, i requires 0 <= i => WinterItem(i))
  }

  /** One item per file, summer first: ids `summer-i` / `winter-i` numbered
      within their own list, the season of the source list, attributes from
      the fixed triples at `i mod 3`, the fixed pair of style tags of the
      season, always solid, formality within [1, 10]. */
  lemma MockItemsShape(summerFiles: seq<File>, winterFiles: seq<File>, k: nat)
    requires k < |MockItems(summerFiles, winterFiles)|
    ensures var item := MockItems(summerFiles, winterFiles)[k];
      && item.pattern == "solid"
      && 1 <= item.formalityLevel <= 10
      && (k < |summerFiles| ==>
            && item.season == Summer
            && item.id == "summer-" + NatToString(k)
            && item.category == ["top", "bottom", "dress"][k % 3]
            && item.subcategory == ["t-shirt", "jeans", "midi-dress"][k % 3]
            && item.primaryColor == ["navy blue", "white", "pastel pink"][k % 3]
            && item.styleTags == ["minimalist", "casual"]
            && item.fit == ["oversized", "fitted", "regular"][k % 3]
            && item.formalityLevel == [2, 5, 7][k % 3])
      && (k >= |summerFiles| ==>
            && item.season == Winter
            && item.id == "winter-" + NatToString(k - |summerFiles|)
            && item.category == ["top", "bottom", "outerwear"][(k - |summerFiles|) % 3]
            && item.subcategory == ["sweater", "trousers", "coat"][(k - |summerFiles|) % 3]
            && item.primaryColor == ["black", "grey", "burgundy"][(k - |summerFiles|) % 3]
            && item.styleTags == ["classic", "minimalist"]
            && item.fit == ["fitted", "regular", "oversized"][(k - |summerFiles|) % 3]
            && item.formalityLevel == [4, 6, 8][(k - |summerFiles|) % 3])
  {
  }

  /** No two analysed items share an id. */
  lemma MockItemIdsDistinct(summerFiles: seq<File>, winterFiles: seq<File>, a: nat, b: nat)
    requires a < b < |MockItems(summerFiles, winterFiles)|
    ensures MockItems(summerFiles, winterFiles)[a].id != MockItems(summerFiles, winterFiles)[b].id
  {
    var items := MockItems(summerFiles, winterFiles);
    var s := |summerFiles|;
    MockItemsShape(summerFiles, winterFiles, a);
    MockItemsShape(summerFiles, winterFiles, b);
    if a < s <= b {
      assert items[a].id[0] == 's' && items[b].id[0] == 'w';
    } else if items[a].id == items[b].id {
      if b < s {
        PrefixedNatInjective("summer-", a, b);
      } else {
        PrefixedNatInjective("winter-", a - s, b - s);
      }
    }
  }

  // ---------------------------------------------------------------------------
  // The page's state and handlers

  class WardrobeScanPage {
    var summerFiles: seq<File>
    var winterFiles: seq<File>
    var isAnalyzing: bool
    var analyzedItems: seq<WardrobeItem>
    var styleDna: Option<StyleDna>
    var error: string
    var activeTab: Season

    /** Neither list ever exceeds its cap. */
    ghost predicate Valid()
      reads this
    {
      |summerFiles| <= MaxFilesPerSeason && |winterFiles| <= MaxFilesPerSeason
    }

    /** The initial `useState` values. */
    constructor ()
      ensures Valid()
      ensures summerFiles == [] && winterFiles == [] && !isAnalyzing && analyzedItems == []
      ensures styleDna == None && error == "" && activeTab == Summer
    {
      summerFiles := [];
      winterFiles := [];
      isAnalyzing := false;
      analyzedItems := [];
      styleDna := None;
      error := "";
      activeTab := Summer;
    }

    /** `handleSummerDrop`: appends up to the cap; the winter list is untouched. */
    method HandleSummerDrop(acceptedFiles: seq<File>)
      modifies this`summerFiles
      ensures summerFiles == CappedAppend(old(summerFiles), acceptedFiles)
      ensures winterFiles == old(winterFiles)
      ensures old(Valid()) ==> Valid()
    {
      summerFiles := summerFiles + SliceTo(acceptedFiles, MaxFilesPerSeason - |summerFiles|);
    }

    /** `handleWinterDrop`: appends up to the cap; the summer list is untouched. */
    method HandleWinterDrop(acceptedFiles: seq<File>)
      modifies this`winterFiles
      ensures winterFiles == CappedAppend(old(winterFiles), acceptedFiles)
      ensures summerFiles == old(summerFiles)
      ensures old(Valid()) ==> Valid()
    {
      winterFiles := winterFiles + SliceTo(acceptedFiles, MaxFilesPerSeason - |winterFiles|);
    }

    /** `removeSummerFile`: drops exactly the file at `index`, if there is one. */
    method RemoveSummerFile(index: int)
      modifies this`summerFiles
      ensures summerFiles == RemoveAt(old(summerFiles), index)
      ensures winterFiles == old(winterFiles)
      ensures old(Valid()) ==> Valid()
    {
      summerFiles := RemoveAt(summerFiles, index);
    }

    /** `removeWinterFile`: drops exactly the file at `index`, if there is one. */
    method RemoveWinterFile(index: int)
      modifies this`winterFiles
      ensures winterFiles == RemoveAt(old(winterFiles), index)
      ensures summerFiles == old(summerFiles)
      ensures old(Valid()) ==> Valid()
    {
      winterFiles := RemoveAt(winterFiles, index);
    }

    /** `analyzeWardrobe` up to its timer: with fewer than ten files it only
        sets the shortfall message; otherwise it starts the analysis, clears
        the error and installs one mock item per file. */
    method AnalyzeWardrobe()
      modifies this`error, this`isAnalyzing, this`analyzedItems
      ensures summerFiles == old(summerFiles) && winterFiles == old(winterFiles)
      ensures |summerFiles| + |winterFiles| < MinTotalItems ==>
        && error == ShortfallMessage(|summerFiles| + |winterFiles|)
        && isAnalyzing == old(isAnalyzing)
        && analyzedItems == old(analyzedItems)
      ensures |summerFiles| + |winterFiles| >= MinTotalItems ==>
        && isAnalyzing
        && error == ""
        && analyzedItems == MockItems(summerFiles, winterFiles)
      ensures !AnalyzeDisabled(old(isAnalyzing), |summerFiles|, |winterFiles|) ==>
        isAnalyzing && error == "" && |analyzedItems| == |summerFiles| + |winterFiles|
    {
      var totalItems := |summerFiles| + |winterFiles|;
      if totalItems < MinTotalItems {
        error := ShortfallMessage(totalItems);
        return;
      }
      isAnalyzing := true;
      error := "";
      var summerItems := seq(|summerFiles|, i requires 0 <= i => SummerItem(i));
      var winterItems := seq(|winterFiles|, i requires 0 <= i => WinterItem(i));
      analyzedItems := summerItems + winterItems;
    }

    /** The timer callback of `analyzeWardrobe`: the mock Style DNA appears and
        the analysis ends. */
    method CompleteAnalysis()
      modifies this`styleDna, this`isAnalyzing
      ensures styleDna == Some(MockStyleDna) && !isAnalyzing
      ensures analyzedItems == old(analyzedItems) && error == old(error)
    {
      styleDna := Some(MockStyleDna);
      isAnalyzing := false;
    }
  }
}
