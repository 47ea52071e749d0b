/** The colour-analysis onboarding page (FRONT/app/onboarding/color-analysis/page.tsx).

    The page keeps one upload list of at most five photos. Choosing files or
    dropping them replaces the list with the first five; analysing needs at
    least two photos and, after a timer, shows a fixed mock result. React
    state updates are modelled as sequential assignments to fields. */
module ColorAnalysis {
  import opened Strings
  import opened Uploads

  /** Cap on the upload list (`slice(0, 5)`). */
  const MaxPhotos: nat := 5
  /** Photos needed before analysing. */
  const MinPhotos: nat := 2

  datatype ColorResult = ColorResult(
    season: string,
    confidenceScore: real,
    flatteringColors: seq<string>,
    colorsToAvoid: seq<string>,
    undertone: string,
    reasoning: string)

  /** The result the page shows after analysing, whatever was uploaded. */
  const MockResult: ColorResult := ColorResult(
    "Spring",
    0.92,
    ["Peach", "Coral", "Warm Pink", "Golden Yellow", "Olive Green"],
    ["Icy Blue", "Jet Black", "Pure White"],
    "warm",
    "Your warm undertones and light features perfectly suit the Spring palette!")

  /** The mock result is self-consistent: its confidence is a probability and
      no colour is both recommended and to be avoided. */
  lemma MockResultConsistent()
    ensures 0.0 <= MockResult.confidenceScore <= 1.0
    ensures forall c :: c in MockResult.flatteringColors ==> c !in MockResult.colorsToAvoid
    ensures |MockResult.flatteringColors| == 5 && |MockResult.colorsToAvoid| == 3
  {
    forall c | c in MockResult.flatteringColors
      ensures c !in MockResult.colorsToAvoid
    {
      assert c[0] in {'P', 'C', 'W', 'G', 'O'};
    }
  }

  /** `Array.from(files).slice(0, 5)`: the first five chosen or dropped files. */
  function FirstPhotos(selected: seq<File>): (r: seq<File>)
    ensures r <= selected
    ensures |r| == Min(MaxPhotos, |selected|)
  {
    SliceTo(selected, MaxPhotos)
  }

  /** The `disabled` expression of the analyse button. */
  predicate AnalyzeDisabled(fileCount: nat, isAnalyzing: bool) {
    fileCount < MinPhotos || isAnalyzing
  }

  /** The hint under the button: shown when some but too few photos are
      chosen, with the plural suffix when more than one is missing. */
  function HintText(fileCount: nat): Option<string> {
    if fileCount < MinPhotos && fileCount > 0 then
      var missing := MinPhotos - fileCount;
      Some("Add " + NatToString(missing) + " more photo" + (if missing > 1 then "s" else ""))
    else
      None
  }

  /** With a minimum of two photos the hint can only appear for exactly one
      photo, so it always reads "Add 1 more photo" and the plural branch never
      fires; whenever it shows, the button is disabled. */
  lemma HintOnlyForOnePhoto(fileCount: nat, isAnalyzing: bool)
    ensures HintText(fileCount).Some? <==> fileCount == 1
    ensures HintText(fileCount).Some? ==> HintText(fileCount).value == "Add 1 more photo"
    ensures HintText(fileCount).Some? ==> AnalyzeDisabled(fileCount, isAnalyzing)
  {
    if fileCount == 1 {
      assert NatToString(1) == "1";
    }
  }

  /** The button is enabled exactly when two to five photos are chosen and no
      analysis runs (the list never holds more than five). */
  lemma EnabledRange(fileCount: nat, isAnalyzing: bool)
    requires fileCount <= MaxPhotos
    ensures !AnalyzeDisabled(fileCount, isAnalyzing)
        <==> !isAnalyzing && fileCount in {2, 3, 4, 5}
  {
  }

  // ---------------------------------------------------------------------------
  // The page's state and handlers

  class ColorAnalysisPage {
    var files: seq<File>
    var isAnalyzing: bool
    var result: Option<ColorResult>
    var error: string

    /** The list never exceeds its cap. */
    ghost predicate Valid()
      reads this
    {
      |files| <= MaxPhotos
    }

    /** The initial `useState` values. */
    constructor ()
      ensures Valid()
      ensures files == [] && !isAnalyzing && result == None && error == ""
    {
      files := [];
      isAnalyzing := false;
      result := None;
      error := "";
    }

    /** `handleFileChange`: when the input holds a file list, it replaces the
        upload list with its first five files and clears the error; otherwise
        nothing changes. */
    method HandleFileChange(selected: Option<seq<File>>)
      modifies this`files, this`error
      ensures selected.Some? ==> files == FirstPhotos(selected.value) && error == ""
      ensures selected.None? ==> files == old(files) && error == old(error)
      ensures old(Valid()) ==> Valid()
    {
      if selected.Some? {
        files := SliceTo(selected.value, MaxPhotos);
        error := "";
      }
    }

    /** The drop handler: like `handleFileChange` but the error stays. */
    method HandleDrop(dropped: Option<seq<File>>)
      modifies this`files
      ensures dropped.Some? ==> files == FirstPhotos(dropped.value)
      ensures dropped.None? ==> files == old(files)
      ensures old(Valid()) ==> Valid()
    {
      if dropped.Some? {
        files := SliceTo(dropped.value, MaxPhotos);
      }
    }

    /** `removeFile`: drops exactly the photo at `index`, if there is one. */
    method RemoveFile(index: int)
      modifies this`files
      ensures files == RemoveAt(old(files), index)
      ensures old(Valid()) ==> Valid()
    {
      files := RemoveAt(files, index);
    }

    /** `analyzeColors` up to its timer: with fewer than two photos it only
        sets the error; otherwise it starts the analysis. The error is not
        cleared and a running analysis is not checked for. */
    method AnalyzeColors()
      modifies this`error, this`isAnalyzing
      ensures files == old(files) && result == old(result)
      ensures |files| < MinPhotos ==>
        error == "Please upload at least 2 photos" && isAnalyzing == old(isAnalyzing)
      ensures |files| >= MinPhotos ==> isAnalyzing && error == old(error)
    {
      if |files| < MinPhotos {
        error := "Please upload at least 2 photos";
        return;
      }
      isAnalyzing := true;
    }

    /** The timer callback of `analyzeColors`: the mock result appears and the
        analysis ends. */
    method CompleteAnalysis()
      modifies this`result, this`isAnalyzing
      ensures result == Some(MockResult) && !isAnalyzing
      ensures files == old(files) && error == old(error)
    {
      result := Some(MockResult);
      isAnalyzing := false;
    }
  }
}
