# StyleSphere AI — a Dafny model of its core

StyleSphere AI is a personal-styling application. A FastAPI backend sends
user photos to a vision model and stores what it reports: the user's colour
season (from two to five selfies), one analysed wardrobe item per upload,
and a "Style DNA" summary of the whole wardrobe. A recommendation module
scores catalogue products against that profile, and a mock scraper produces
the catalogues of two stores. Two Next.js onboarding pages collect the
uploads: a colour-analysis page and a wardrobe-scan page with a summer and a
winter list.

This project models the deterministic logic of those pieces:

- `Recommendation` (recommendation.dfy): `calculate_match_score`, step by
  step as a method proved equal to a score function, and
  `get_recommendations`. The latter scores every product, sorts the list
  stably by descending score and keeps the top ten.
- `Catalogue` (catalogue.dfy): the two mock scrapers, as list comprehensions
  over `range(max_results)`.
- `Api` (api.dfy) covers the backend endpoints:
  - the photo-count gate and content-type allow-list of `/api/analyze-colors`;
  - the way its `except Exception` turns any error into a 500;
  - `parse_gemini_json_response`;
  - the required-field check;
  - the category hint sentence of `/api/analyze-wardrobe-item`;
  - the item projection of `/api/generate-style-dna`.
- `WardrobeScan` (wardrobe_scan.dfy) and `ColorAnalysis`
  (color_analysis.dfy): the two pages, each as a class whose fields are the
  page's `useState` variables and whose methods are its handlers.
- `Strings` (strings.dfy) and `Uploads` (uploads.dfy) hold what these share:
  - Python's `str.strip`, `str.split(sep)[0]` / `[1]` and integer
    formatting;
  - JavaScript's `slice(0, n)` and index-filter.

The backend hands colour classification, item analysis and Style DNA
generation to the vision model, and the two pages show fixed mock results;
what is modelled here is the logic around those calls.

## Model

| member | source | states |
|---|---|---|
| Strings.NatToStringInjective | Backend/scraper.py:12 | Distinct indices print as distinct decimal strings, which the `f"myntra_{i}"`-style ids rely on |
| Strings.Strip | main.py:91-95 | `.strip()` removes exactly the leading and trailing Python whitespace: the result is a slice of the input, all that is cut off is whitespace, and the result neither starts nor ends with whitespace |
| Strings.FindFrom | main.py:90-93 | The leftmost occurrence of a separator at or after a position, or none when there is none |
| Strings.FirstPiece | main.py:91-93 | `s.split(sep)[0]` is a prefix of `s` that contains no `sep`; it is all of `s` or ends exactly where the first `sep` starts |
| Strings.SecondPieceIs | main.py:91-93 | `s.split(sep)[1]` is the text from the end of the first `sep` to the start of the next one (or the end) |
| Uploads.SliceTo | FRONT/app/onboarding/wardrobe-scan/page.tsx:29 | `slice(0, end)` is a prefix of its array of length `min(end, len)`; for a negative `end`, of length `max(0, len + end)` |
| Uploads.RemoveAt | FRONT/app/onboarding/wardrobe-scan/page.tsx:36-42 | `filter((_, i) => i !== index)` removes exactly the element at `index` and keeps the rest in order; an index outside the list removes nothing |
| Catalogue.ScrapeMyntraSearch | Backend/scraper.py:6-26 | One product per index of `range(max_results)`, none for a negative count |
| Catalogue.DefaultCatalogueSize | Backend/scraper.py:6-28 | Without `max_results`, each store yields its default of twenty products |
| Catalogue.ScrapeAmazonSearch | Backend/scraper.py:28-47 | One product per index of `range(max_results)`, none for a negative count |
| Catalogue.MyntraProductShape | Backend/scraper.py:9-25 | Each Myntra product has: id `myntra_i`; price `500 + 200*i`; colour and tag prefix chosen by `i mod 3`; one to three tags; category `top`; formality 3; seasons `["all-season"]`; brand X |
| Catalogue.MyntraIdsDistinct | Backend/scraper.py:12 | No two Myntra products of one call share an id |
| Catalogue.MyntraPricesIncrease | Backend/scraper.py:14 | Myntra prices strictly increase along the list |
| Catalogue.MyntraPrefixStable | Backend/scraper.py:9-25 | A smaller `max_results` yields a prefix of the larger result |
| Catalogue.AmazonProductShape | Backend/scraper.py:30-46 | Each Amazon product has: id `amazon_i`; price `300 + 150*i`; colour and tag prefix chosen by `i mod 3`; category `dress`; formality 7; season winter for even `i` and summer for odd `i`; brand Y |
| Catalogue.AmazonIdsDistinct | Backend/scraper.py:33 | No two Amazon products of one call share an id |
| Catalogue.AmazonPricesIncrease | Backend/scraper.py:35 | Amazon prices strictly increase along the list |
| Catalogue.AmazonPrefixStable | Backend/scraper.py:30-46 | A smaller `max_results` yields a prefix of the larger result |
| Catalogue.StoresNeverShareIds | Backend/scraper.py:12-33 | No Myntra id equals an Amazon id |
| Recommendation.MatchScore | Backend/recommendation.py:61 | The score always lies in [0, 100], and equals the unclamped sum whenever that sum is already in range |
| Recommendation.CalculateMatchScore | Backend/recommendation.py:35-61 | The step-by-step computation ends in [0, 100] and equals the clamped sum of the colour, tag and budget terms |
| Recommendation.ColorTermCases | Backend/recommendation.py:39-43 | A flattering colour adds exactly 30, even when also listed to avoid; a colour only to avoid subtracts 20; any other colour adds nothing |
| Recommendation.FlatteringOverridesAvoid | Backend/recommendation.py:40-43 | Adding a flattering colour to the avoid list never changes the score |
| Recommendation.TagTermBounded | Backend/recommendation.py:46-49 | The tag bonus is non-negative and at most ten per tag of the product |
| Recommendation.DuplicateTagIgnored | Backend/recommendation.py:48-49 | Because tags are intersected as sets, repeating a user tag never changes the score |
| Recommendation.BudgetTermCases | Backend/recommendation.py:52-55 | Within budget exactly +20; over budget exactly minus one hundredth of the overrun, which is negative |
| Recommendation.ScoreNonIncreasingInPrice | Backend/recommendation.py:52-61 | Raising a product's price never raises its score |
| Recommendation.FormalityRangeIgnored | Backend/recommendation.py:57-59 | The formality range is read but never affects the score |
| Recommendation.DistinctAtMostLength | Backend/recommendation.py:48 | A list has no more distinct tags than entries |
| Recommendation.InsertPermutes | Backend/recommendation.py:32 | Insertion into the sorted list loses and duplicates nothing |
| Recommendation.InsertSorted | Backend/recommendation.py:32 | Insertion keeps the list in non-increasing score order |
| Recommendation.InsertStable | Backend/recommendation.py:32 | Insertion never moves an entry past one of equal score |
| Recommendation.SortCorrect | Backend/recommendation.py:32 | `sort(key=score, reverse=True)` orders by non-increasing score, permutes the list, and keeps equal-score entries in their input order |
| Recommendation.ScoreAll | Backend/recommendation.py:20-29 | One scored entry per product, in product order, each carrying its product, its match score and the explanation for that score |
| Recommendation.GetRecommendations | Backend/recommendation.py:2-33 | Returns the first `min(10, n)` entries of the stably sorted scored list. They are in non-increasing score order, and each comes from the input with its own score and explanation |
| Recommendation.KeptOutscoreDropped | Backend/recommendation.py:32-33 | Every recommendation kept scores at least as high as every product cut by the top-ten truncation |
| Api.PrepareImageParts | main.py:121-133 | Succeeds iff every file's content type is JPEG, PNG or WebP, and then keeps one part per file in order. Otherwise it raises the 400 "Invalid file type: …" naming the first refused file |
| Api.ExtractJsonText | main.py:89-95 | The extracted text is stripped, and holds no ``` fence when the reply had one. With no fence it is the whole reply stripped |
| Api.JsonFenceIsFence | main.py:90-92 | A reply holding ```json also holds ```, so the branch order matters |
| Api.PlainFenceBlock | main.py:92-93 | With ``` fences but no ```json, the text is the stripped content between the first fence and the next (or the end) |
| Api.OverlappingFences | main.py:91 | Two ``` fences closer than three characters imply a run of four backticks |
| Api.JsonFenceBlock | main.py:90-91 | With a ```json fence and no four-backtick run, the text is the stripped content between the first ```json and the next ``` after it (or the end) |
| Api.ParseGeminiJsonResponse | main.py:86-101 | Returns the parser's value iff the extracted text parses; otherwise raises 500 "Failed to parse AI response" |
| Api.FirstMissingField | main.py:171-175 | Reports nothing iff all six required fields are present; otherwise reports the first missing one in list order |
| Api.AnalyzeColors | main.py:106-192 | Fewer than 2 or more than 5 files raise the 400 before the `try`. Any other error comes back as 500 "Analysis failed: …", including a refused file's 400 wrapped. A reply that does not parse gives exactly 500 "Analysis failed: 500: Failed to parse AI response"; a reply lacking a field gives 500 "Analysis failed: 500: AI response missing field: " naming the first missing field. The result is Ok iff the count, the types, the parse and the required fields all pass, and then it is the parsed reply |
| Api.CategoryContext | main.py:212 | Empty exactly when the hint is absent or empty |
| Api.CategoryContextQuotesHint | main.py:212 | A non-empty hint is quoted verbatim between the fixed sentence start and the final full stop |
| Api.PrepareWardrobeItem | main.py:204-212 | A refused image type raises "Invalid image format", which the `except` rewraps as a 500. Otherwise the hint sentence is built |
| Api.ItemsSummary | main.py:293-303 | One summary per stored item, in order, with exactly the seven listed fields copied unchanged |
| WardrobeScan.CappedAppend | FRONT/app/onboarding/wardrobe-scan/page.tsx:28-34 | The old list stays as a prefix. The new files taken are a prefix of the drop, and a list within its cap ends at `min(10, old + dropped)` |
| WardrobeScan.DisabledIffBusyOrShort | FRONT/app/onboarding/wardrobe-scan/page.tsx:611 | The button is disabled exactly while analysing or while some files are missing; the shortfall plus the files uploaded is exactly 10 |
| WardrobeScan.MockItems | FRONT/app/onboarding/wardrobe-scan/page.tsx:55-80 | One item per uploaded file: the summer items first, then the winter items |
| WardrobeScan.MockItemsShape | FRONT/app/onboarding/wardrobe-scan/page.tsx:55-80 | Each item has: its list's season; id `summer-i` / `winter-i` numbered within its list; category, subcategory, primary colour, fit and formality from the fixed triples at `i mod 3`; the season's fixed pair of style tags; a solid pattern; formality in [1, 10] |
| WardrobeScan.MockItemIdsDistinct | FRONT/app/onboarding/wardrobe-scan/page.tsx:56-69 | No two analysed items share an id |
| WardrobeScan.WardrobeScanPage.constructor | FRONT/app/onboarding/wardrobe-scan/page.tsx:20-26 | The initial state: empty lists, no analysis, no error, summer tab |
| WardrobeScan.WardrobeScanPage.HandleSummerDrop | FRONT/app/onboarding/wardrobe-scan/page.tsx:28-30 | The summer list becomes the capped append, the winter list is unchanged, and the cap of 10 is kept |
| WardrobeScan.WardrobeScanPage.HandleWinterDrop | FRONT/app/onboarding/wardrobe-scan/page.tsx:32-34 | The winter list becomes the capped append, the summer list is unchanged, and the cap of 10 is kept |
| WardrobeScan.WardrobeScanPage.RemoveSummerFile | FRONT/app/onboarding/wardrobe-scan/page.tsx:36-38 | Removes exactly the summer file at the index; the winter list is unchanged |
| WardrobeScan.WardrobeScanPage.RemoveWinterFile | FRONT/app/onboarding/wardrobe-scan/page.tsx:40-42 | Removes exactly the winter file at the index; the summer list is unchanged |
| WardrobeScan.WardrobeScanPage.AnalyzeWardrobe | FRONT/app/onboarding/wardrobe-scan/page.tsx:44-81 | Under 10 files it only sets the "(k more needed)" message. Otherwise it starts analysing, clears the error and installs one mock item per file. Whenever the button was enabled, the analysis starts |
| WardrobeScan.WardrobeScanPage.CompleteAnalysis | FRONT/app/onboarding/wardrobe-scan/page.tsx:84-97 | The timer installs the fixed mock Style DNA and ends the analysis, leaving items and error alone |
| ColorAnalysis.MockResultConsistent | FRONT/app/onboarding/color-analysis/page.tsx:32-39 | The mock result's confidence lies in [0, 1], and no colour is both flattering and to be avoided |
| ColorAnalysis.FirstPhotos | FRONT/app/onboarding/color-analysis/page.tsx:14 | The list kept is the first `min(5, n)` of the files chosen |
| ColorAnalysis.HintOnlyForOnePhoto | FRONT/app/onboarding/color-analysis/page.tsx:245-249 | The hint shows iff exactly one photo is chosen, and then reads "Add 1 more photo"; the plural branch never fires. Whenever it shows, the button is disabled |
| ColorAnalysis.EnabledRange | FRONT/app/onboarding/color-analysis/page.tsx:222 | The button is enabled iff no analysis runs and two to five photos are chosen |
| ColorAnalysis.ColorAnalysisPage.constructor | FRONT/app/onboarding/color-analysis/page.tsx:7-10 | The initial state: no files, no analysis, no result, no error |
| ColorAnalysis.ColorAnalysisPage.HandleFileChange | FRONT/app/onboarding/color-analysis/page.tsx:12-17 | With a file list, keeps its first five and clears the error; without one, nothing changes |
| ColorAnalysis.ColorAnalysisPage.HandleDrop | FRONT/app/onboarding/color-analysis/page.tsx:140-145 | With a file list, keeps its first five but leaves the error as it was; without one, nothing changes |
| ColorAnalysis.ColorAnalysisPage.RemoveFile | FRONT/app/onboarding/color-analysis/page.tsx:19-21 | Removes exactly the photo at the index and keeps the cap of 5 |
| ColorAnalysis.ColorAnalysisPage.AnalyzeColors | FRONT/app/onboarding/color-analysis/page.tsx:23-29 | Under 2 photos it only sets "Please upload at least 2 photos". Otherwise it starts analysing and leaves the error untouched |
| ColorAnalysis.ColorAnalysisPage.CompleteAnalysis | FRONT/app/onboarding/color-analysis/page.tsx:31-41 | The timer installs the fixed mock result and ends the analysis |

## Left out

- The vision model (`model.generate_content`) is not modelled. Its reply
  text is a parameter of `Api.AnalyzeColors`. The prompts' wording is not
  modelled.
- `json.loads` is not modelled either. It is a parameter: a function from
  text to an optional key/value map, where `None` stands for a
  `JSONDecodeError`. Only the reply's keys are modelled, not its values.
- Base64 encoding of images: the bytes stand in for their base64 text.
- Supabase is not modelled:
  - the inserts into `color_analysis` and `wardrobe_items`, and the errors
    they could raise inside the `try`;
  - the wardrobe query of `/api/generate-style-dna` and the model call after
    the summary. An empty wardrobe raises a 404 inside the `try`, so the
    endpoint answers 500 "Style DNA generation failed: 404: No wardrobe items
    found";
  - `user_id`, which only keys those database rows.
- The rest of `/api/analyze-wardrobe-item` after its hint sentence, that is
  the model call and the insert, is not modelled: it needs the model and the
  database.
- `get_user_profile`, `get_products_from_db` and `generate_explanation` are
  not defined in Backend/recommendation.py. The profile and the products
  are parameters, and the explanation is a function parameter.
- Scores are exact reals. Python's float rounding in the budget penalty
  `/ 100` is not modelled.
- Recommendation.GetRecommendations: Python sorts `scored_products` in
  place. The model reassigns a new sorted sequence, specified by an
  insertion-sort function with the same stable, descending order.
- Api.JsonFenceBlock: it states the ```json extraction only for replies
  without a run of four backticks. With such a run, Python's two splits can
  cut elsewhere; `Api.ExtractJsonText` still models that case as written.
- `print` logging in the backend's `except` blocks is not modelled.
- React rendering, styles, the dropzones' `accept` filters and the browser
  file picker are not modelled. The `activeTab` switching of the wardrobe
  page is not modelled either; only the tab's initial value is.
- The `setTimeout` delays (2000 ms and 1500 ms) are not modelled. Each timer
  callback is a separate `CompleteAnalysis` method, run whenever the
  environment chooses.
- FRONT/shopping/page.tsx and the scraper's unused imports (`requests`,
  `BeautifulSoup`, `json`) have no behaviour in scope.
- `get_user_profile` (`/api/user-profile/{user_id}`) is not modelled: it only
  reads Supabase. The health check `/` is not modelled: it returns a constant.
  The Pydantic response models are not part of this model.
