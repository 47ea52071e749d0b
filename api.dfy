/** The deterministic parts of the FastAPI backend (main.py): the photo-count
    gate and the content-type allow-list of the colour-analysis endpoint, the
    way its `try`/`except Exception` turns every error raised inside it into a
    500, the extraction of JSON text from a possibly fenced model reply, the
    required-field check on the parsed reply, the category hint sentence of
    the wardrobe-item endpoint, and the item projection of the Style DNA
    endpoint. The model service, the JSON parser and the database are
    collaborators: the reply text and the parser are parameters, and the
    database writes are left out. */
module Api {
  import opened Strings

  /** FastAPI's `HTTPException(status_code, detail)`. */
  datatype HttpException = HttpException(status: nat, detail: string)

  /** What an endpoint does: return a body or raise. */
  datatype Response<T> = Ok(body: T) | Raised(error: HttpException)

  /** `str(e)` of an `HTTPException`, as Starlette renders it. */
  function ExceptionText(e: HttpException): string {
    NatToString(e.status) + ": " + e.detail
  }

  /** `except Exception as e: raise HTTPException(500, detail=f"{prefix}{str(e)}")` */
  function Rewrap(prefix: string, e: HttpException): HttpException {
    HttpException(500, prefix + ExceptionText(e))
  }

  // ---------------------------------------------------------------------------
  // Uploaded files and the content-type allow-list

  /** An `UploadFile`: its declared content type (possibly absent) and bytes. */
  datatype Upload = Upload(contentType: Option<string>, content: seq<bv8>)

  /** One entry of `image_parts`; the bytes stand for their base64 text. */
  datatype ImagePart = ImagePart(mimeType: string, data: seq<bv8>)

  const AllowedImageTypes: seq<string> := ["image/jpeg", "image/png", "image/webp"]

  predicate Allowed(contentType: Option<string>) {
    contentType.Some? && contentType.value in AllowedImageTypes
  }

  /** The content type as an f-string prints it (`None` when absent). */
  function ContentTypeText(contentType: Option<string>): string {
    match contentType
    case None => "None"
    case Some(t) => t
  }

  /** `files[k]` is the first file whose content type is refused. */
  predicate FirstRefused(files: seq<Upload>, k: int) {
    && 0 <= k < |files|
    && !Allowed(files[k].contentType)
    && (forall j :: 0 <= j < k ==> Allowed(files[j].contentType))
  }

  /** The loop that fills `image_parts`: it stops at the first refused file
      with a 400, and otherwise keeps one part per file, in order. */
  method PrepareImageParts(files: seq<Upload>) returns (r: Response<seq<ImagePart>>)
    ensures r.Ok? <==> forall i :: 0 <= i < |files| ==> Allowed(files[i].contentType)
    ensures r.Ok? ==> |r.body| == |files|
    ensures r.Ok? ==> forall i :: 0 <= i < |files| ==>
      r.body[i] == ImagePart(files[i].contentType.value, files[i].content)
    ensures r.Raised? ==> exists k :: (FirstRefused(files, k)
      && r.error == HttpException(400, "Invalid file type: " + ContentTypeText(files[k].contentType)))
  {
    var imageParts: seq<ImagePart> := [];
    for i := 0 to |files|
      invariant |imageParts| == i
      invariant forall j :: 0 <= j < i ==> Allowed(files[j].contentType)
      invariant forall j :: 0 <= j < i ==>
        imageParts[j] == ImagePart(files[j].contentType.value, files[j].content)
    {
      var file := files[i];
      if !Allowed(file.contentType) {
        assert FirstRefused(files, i);
        return Raised(HttpException(400, "Invalid file type: " + ContentTypeText(file.contentType)));
      }
      imageParts := imageParts + [ImagePart(file.contentType.value, file.content)];
    }
    r := Ok(imageParts);
  }

  // ---------------------------------------------------------------------------
  // parse_gemini_json_response

  const JsonFence: string := "```json"
  const Fence: string := "```"

  /** The text handed to `json.loads`: the first ```json block, else the
      first ``` block, else the whole reply; always stripped. */
  function ExtractJsonText(text: string): (r: string)
    ensures Contains(text, Fence) ==> !Contains(r, Fence)
    ensures r == [] || (!IsSpace(r[0]) && !IsSpace(r[|r| - 1]))
    ensures !Contains(text, Fence) ==> r == Strip(text)
  {
    if Contains(text, JsonFence) then
      JsonFenceIsFence(text);
      var block := FirstPiece(SecondPiece(text, JsonFence), Fence);
      StripKeepsAbsence(block, Fence);
      Strip(block)
    else if Contains(text, Fence) then
      var block := FirstPiece(SecondPiece(text, Fence), Fence);
      StripKeepsAbsence(block, Fence);
      Strip(block)
    else
      Strip(text)
  }

  /** Every ```json fence begins with a ``` fence. */
  lemma JsonFenceIsFence(text: string)
    requires Contains(text, JsonFence)
    ensures Contains(text, Fence)
  {
    var k :| 0 <= k <= |text| && OccursAt(text, JsonFence, k);
    assert text[k..k + |Fence|] == text[k..k + |JsonFence|][..|Fence|];
    assert OccursAt(text, Fence, k);
  }

  /** If no occurrence of `pat` starts in `[lo, j)`, and `j` is either `hi`
      or the start of an occurrence that ends by `hi`, then the first piece
      of `text[lo..hi]` split on `pat` is `text[lo..j]`. */
  lemma FirstPieceOfSlice(text: string, pat: string, lo: nat, j: nat, hi: nat)
    requires pat != [] && lo <= j <= hi <= |text|
    requires forall k :: lo <= k < j ==> !OccursAt(text, pat, k)
    requires j == hi || (OccursAt(text, pat, j) && j + |pat| <= hi)
    ensures FirstPiece(text[lo..hi], pat) == text[lo..j]
  {
    var p := text[lo..hi];
    forall k | 0 <= k && k + |pat| <= |p| ensures OccursAt(p, pat, k) <==> OccursAt(text, pat, lo + k) {
      var u := p[k..k + |pat|];
      assert forall n :: 0 <= n < |u| ==> u[n] == text[lo + k + n];
      assert u == text[lo + k..lo + k + |pat|];
    }
    if j < hi {
      assert OccursAt(p, pat, j - lo);
      FindFromIs(p, pat, 0, j - lo);
    }
  }

  /** A reply with ``` fences but no ```json fence yields the stripped text
      between its first and second fence (or the end of the reply). */
  lemma PlainFenceBlock(text: string, i: nat, j: nat)
    requires !Contains(text, JsonFence)
    requires OccursAt(text, Fence, i) && forall k :: 0 <= k < i ==> !OccursAt(text, Fence, k)
    requires i + |Fence| <= j <= |text| && (j == |text| || OccursAt(text, Fence, j))
    requires forall k :: i + |Fence| <= k < j ==> !OccursAt(text, Fence, k)
    ensures ExtractJsonText(text) == Strip(text[i + |Fence|..j])
  {
    SecondPieceIs(text, Fence, i, j);
    FirstPieceOfSlice(text, Fence, i + |Fence|, j, j);
  }

  /** A run of four backticks is what lets a ``` start inside the text and
      end inside the next ```json fence. */
  lemma OverlappingFences(text: string, j: nat, m: nat)
    requires OccursAt(text, Fence, j) && OccursAt(text, Fence, m) && j < m < j + |Fence|
    ensures OccursAt(text, "````", j)
  {
    var a, b := text[j..j + 3], text[m..m + 3];
    assert a == "```" && b == "```";
    assert text[j + 3] == b[j + 3 - m] == '`';
    assert text[j..j + 4] == a + [text[j + 3]];
  }

  /** A reply with a ```json fence yields the stripped text between the first
      ```json and the next ``` after it (or the end of the reply), as long as
      the reply never holds four backticks in a row; with such a run the two
      splits can cut at a later point. */
  lemma JsonFenceBlock(text: string, i: nat, j: nat, m: nat)
    requires !Contains(text, "````")
    requires OccursAt(text, JsonFence, i) && forall k :: 0 <= k < i ==> !OccursAt(text, JsonFence, k)
    requires i + |JsonFence| <= j <= |text| && (j == |text| || OccursAt(text, Fence, j))
    requires forall k :: i + |JsonFence| <= k < j ==> !OccursAt(text, Fence, k)
    requires i + |JsonFence| <= m <= |text| && (m == |text| || OccursAt(text, JsonFence, m))
    requires forall k :: i + |JsonFence| <= k < m ==> !OccursAt(text, JsonFence, k)
    ensures ExtractJsonText(text) == Strip(text[i + |JsonFence|..j])
  {
    var lo := i + |JsonFence|;
    SecondPieceIs(text, JsonFence, i, m);
    if m < |text| {
      assert text[m..m + |Fence|] == text[m..m + |JsonFence|][..|Fence|];
      assert OccursAt(text, Fence, m);
      assert j <= m;
      if j < m < j + |Fence| {
        OverlappingFences(text, j, m);
        assert false;
      }
    } else if j < |text| {
      assert OccursAt(text, Fence, j);
    }
    FirstPieceOfSlice(text, Fence, lo, j, m);
  }

  /** The reply as `json.loads` returned it; only its keys matter here. */
  type Reply = map<string, string>

  /** `parse_gemini_json_response`. The parser is a parameter standing for
      `json.loads`; `None` stands for a `JSONDecodeError`. */
  function ParseGeminiJsonResponse(text: string, parse: string -> Option<Reply>): (r: Response<Reply>)
    ensures r.Ok? <==> parse(ExtractJsonText(text)).Some?
    ensures r.Ok? ==> r.body == parse(ExtractJsonText(text)).value
    ensures r.Raised? ==> r.error == HttpException(500, "Failed to parse AI response")
  {
    match parse(ExtractJsonText(text))
    case Some(reply) => Ok(reply)
    case None => Raised(HttpException(500, "Failed to parse AI response"))
  }

  // ---------------------------------------------------------------------------
  // Required fields of a colour-analysis reply

  const RequiredFields: seq<string> :=
    ["season", "confidence_score", "flattering_colors", "colors_to_avoid", "undertone", "reasoning"]

  /** `RequiredFields[k]` is the first required field, in list order, that
      the reply lacks. */
  predicate FirstMissing(reply: Reply, k: int) {
    && 0 <= k < |RequiredFields|
    && RequiredFields[k] !in reply
    && (forall j :: 0 <= j < k ==> RequiredFields[j] in reply)
  }

  /** The loop over `required_fields`: the first field, in list order, that
      the reply lacks; a field the reply has is never reported. */
  method FirstMissingField(reply: Reply) returns (missing: Option<string>)
    ensures missing.None? <==> forall f :: f in RequiredFields ==> f in reply
    ensures missing.Some? ==> exists k :: FirstMissing(reply, k) && RequiredFields[k] == missing.value
  {
    for i := 0 to |RequiredFields|
      invariant forall j :: 0 <= j < i ==> RequiredFields[j] in reply
    {
      var field := RequiredFields[i];
      if field !in reply {
        return Some(field);
      }
    }
    missing := None;
  }

  // ---------------------------------------------------------------------------
  // POST /api/analyze-colors

  /** `analyze_colors`, with the model's reply text and the JSON parser given;
      the database insert is left out. The count check runs before the `try`;
      everything raised inside it comes back as a 500 "Analysis failed: ...". */
  method AnalyzeColors(files: seq<Upload>, replyText: string, parse: string -> Option<Reply>)
    returns (r: Response<Reply>)
    ensures !(2 <= |files| <= 5) ==>
      r == Raised(HttpException(400, "Please upload between 2 and 5 photos"))
    ensures 2 <= |files| <= 5 && r.Raised? ==>
      r.error.status == 500 && "Analysis failed: " <= r.error.detail
    ensures 2 <= |files| <= 5 ==> forall k :: FirstRefused(files, k) ==>
      r == Raised(Rewrap("Analysis failed: ",
                         HttpException(400, "Invalid file type: " + ContentTypeText(files[k].contentType))))
    ensures r.Ok? <==>
      && 2 <= |files| <= 5
      && (forall i :: 0 <= i < |files| ==> Allowed(files[i].contentType))
      && parse(ExtractJsonText(replyText)).Some?
      && (forall f :: f in RequiredFields ==> f in parse(ExtractJsonText(replyText)).value)
    ensures r.Ok? ==> r.body == parse(ExtractJsonText(replyText)).value
    ensures && 2 <= |files| <= 5
            && (forall i :: 0 <= i < |files| ==> Allowed(files[i].contentType))
            && parse(ExtractJsonText(replyText)).None? ==>
      r == Raised(Rewrap("Analysis failed: ", HttpException(500, "Failed to parse AI response")))
    ensures && 2 <= |files| <= 5
            && (forall i :: 0 <= i < |files| ==> Allowed(files[i].contentType))
            && parse(ExtractJsonText(replyText)).Some? ==>
      forall k :: FirstMissing(parse(ExtractJsonText(replyText)).value, k) ==>
        r == Raised(Rewrap("Analysis failed: ",
                           HttpException(500, "AI response missing field: " + RequiredFields[k])))
  {
    if |files| < 2 || |files| > 5 {
      return Raised(HttpException(400, "Please upload between 2 and 5 photos"));
    }
    var parts := PrepareImageParts(files);
    if parts.Raised? {
      ghost var k :| FirstRefused(files, k)
        && parts.error == HttpException(400, "Invalid file type: " + ContentTypeText(files[k].contentType));
      assert forall k' :: FirstRefused(files, k') ==> k' == k;
      return Raised(Rewrap("Analysis failed: ", parts.error));
    }
    assert forall k :: !FirstRefused(files, k);
    var result := ParseGeminiJsonResponse(replyText, parse);
    if result.Raised? {
      return Raised(Rewrap("Analysis failed: ", result.error));
    }
    var missing := FirstMissingField(result.body);
    if missing.Some? {
      ghost var k :| FirstMissing(result.body, k) && RequiredFields[k] == missing.value;
      assert forall k' :: FirstMissing(result.body, k') ==> k' == k;
      return Raised(Rewrap("Analysis failed: ",
                           HttpException(500, "AI response missing field: " + missing.value)));
    }
    r := Ok(result.body);
  }

  // ---------------------------------------------------------------------------
  // POST /api/analyze-wardrobe-item

  /** `category_context`: empty without a hint (None or the empty string),
      otherwise a sentence quoting the hint. */
  function CategoryContext(categoryHint: Option<string>): (r: string)
    ensures r == [] <==> categoryHint.None? || categoryHint.value == []
  {
    if categoryHint.Some? && categoryHint.value != [] then
      "The user says this might be a " + categoryHint.value + "."
    else
      ""
  }

  /** The sentence quotes the hint verbatim: the hint can be read back from it. */
  lemma CategoryContextQuotesHint(hint: string)
    requires hint != []
    ensures var r := CategoryContext(Some(hint));
      && r[..|"The user says this might be a "|] == "The user says this might be a "
      && r[|"The user says this might be a "|..|r| - 1] == hint
      && r[|r| - 1] == '.'
  {
  }

  /** The part of `analyze_wardrobe_item` before the model call: the image
      check, whose 400 the `except` turns into a 500, then the hint sentence. */
  function PrepareWardrobeItem(contentType: Option<string>, categoryHint: Option<string>): (r: Response<string>)
    ensures r.Ok? <==> Allowed(contentType)
    ensures r.Ok? ==> r.body == CategoryContext(categoryHint)
    ensures r.Raised? ==> r.error == Rewrap("Item analysis failed: ", HttpException(400, "Invalid image format"))
  {
    if !Allowed(contentType) then
      Raised(Rewrap("Item analysis failed: ", HttpException(400, "Invalid image format")))
    else
      Ok(CategoryContext(categoryHint))
  }

  // ---------------------------------------------------------------------------
  // POST /api/generate-style-dna: the items summary

  /** A row of the `wardrobe_items` table. */
  datatype StoredItem = StoredItem(
    id: string,
    userId: string,
    category: string,
    subcategory: string,
    primaryColor: string,
    secondaryColors: seq<string>,
    pattern: string,
    fit: string,
    formalityLevel: int,
    seasonality: seq<string>,
    styleTags: seq<string>,
    description: string)

  /** The seven keys sent to the model for each item. */
  datatype ItemSummary = ItemSummary(
    category: string,
    subcategory: string,
    primaryColor: string,
    pattern: string,
    fit: string,
    formalityLevel: int,
    styleTags: seq<string>)

  /** The loop that fills `items_summary`: one entry per stored item, in the
      same order, with exactly the seven listed fields copied unchanged. */
  method ItemsSummary(items: seq<StoredItem>) returns (summary: seq<ItemSummary>)
    ensures |summary| == |items|
    ensures forall i :: 0 <= i < |items| ==>
      && summary[i].category == items[i].category
      && summary[i].subcategory == items[i].subcategory
      && summary[i].primaryColor == items[i].primaryColor
      && summary[i].pattern == items[i].pattern
      && summary[i].fit == items[i].fit
      && summary[i].formalityLevel == items[i].formalityLevel
      && summary[i].styleTags == items[i].styleTags
  {
    summary := [];
    for i := 0 to |items|
      invariant |summary| == i
      invariant forall j :: 0 <= j < i ==>
        summary[j] == ItemSummary(items[j].category, items[j].subcategory, items[j].primaryColor,
                                  items[j].pattern, items[j].fit, items[j].formalityLevel, items[j].styleTags)
    {
      var item := items[i];
      summary := summary + [ItemSummary(item.category, item.subcategory, item.primaryColor,
                                        item.pattern, item.fit, item.formalityLevel, item.styleTags)];
    }
  }
}
