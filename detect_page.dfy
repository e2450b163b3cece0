/** The upload-and-analyze workflow of the detection page: its four pieces of React
    state as the fields of one object, and each event handler as a method on it. */
module DetectPage {
  import opened Wrappers
  import opened ImageFile
  import opened Inference

  /** The multipart body `analyzeImage` posts: one form field holding the selected file. */
  datatype AnalysisRequest = AnalysisRequest(field: string, file: File)

  const UploadField: string := "file"

  class DetectionApp {
    var selectedFile: Option<File>
    var isAnalyzing: bool
    var result: Option<AnalysisResult>
    var dragActive: bool

    /** The workflow invariant: the page is only ever busy analyzing a file it holds. */
    ghost predicate Valid()
      reads this
    {
      isAnalyzing ==> selectedFile.Some?
    }

    /** The initial values given to `useState`. */
    constructor ()
      ensures Valid()
      ensures selectedFile == None && !isAnalyzing && result == None && !dragActive
    {
      selectedFile := None;
      isAnalyzing := false;
      result := None;
      dragActive := false;
    }

    /** The drag-enter, drag-over and drag-leave handler: only the highlight flag moves. */
    method HandleDrag(eventType: string)
      requires Valid()
      modifies this
      ensures Valid()
      ensures eventType == "dragenter" || eventType == "dragover" ==> dragActive
      ensures eventType == "dragleave" ==> !dragActive
      ensures eventType !in {"dragenter", "dragover", "dragleave"} ==> dragActive == old(dragActive)
      ensures selectedFile == old(selectedFile) && result == old(result)
      ensures isAnalyzing == old(isAnalyzing)
    {
      if eventType == "dragenter" || eventType == "dragover" {
        dragActive := true;
      } else if eventType == "dragleave" {
        dragActive := false;
      }
    }

    /** The drop handler: the highlight goes off, and the first dropped file is adopted,
        and any old result discarded, only when its declared type is an image type. */
    method HandleDrop(files: seq<File>)
      requires Valid()
      modifies this
      ensures Valid()
      ensures !dragActive
      ensures isAnalyzing == old(isAnalyzing)
      ensures |files| > 0 && IsImageType(files[0].mimeType) ==>
                selectedFile == Some(files[0]) && result == None
      ensures !(|files| > 0 && IsImageType(files[0].mimeType)) ==>
                selectedFile == old(selectedFile) && result == old(result)
    {
      dragActive := false;
      if |files| > 0 {
        var file := files[0];
        if IsImageType(file.mimeType) {
          selectedFile := Some(file);
          result := None;
        }
      }
    }

    /** The file-picker handler: the first picked file is adopted and any old result
        discarded, with no check of its type; an empty selection changes nothing. */
    method HandleFileSelect(files: seq<File>)
      requires Valid()
      modifies this
      ensures Valid()
      ensures |files| > 0 ==> selectedFile == Some(files[0]) && result == None
      ensures |files| == 0 ==> selectedFile == old(selectedFile) && result == old(result)
      ensures isAnalyzing == old(isAnalyzing) && dragActive == old(dragActive)
    {
      if |files| > 0 {
        selectedFile := Some(files[0]);
        result := None;
      }
    }

    /** The part of `analyzeImage` before the request goes out: without a file nothing
        happens; with one the page turns busy and the upload of exactly that file is built. */
    method StartAnalyze() returns (request: Option<AnalysisRequest>)
      requires Valid()
      modifies this
      ensures Valid()
      ensures old(selectedFile).None? ==> request == None && unchanged(this)
      ensures old(selectedFile).Some? ==>
                request == Some(AnalysisRequest(UploadField, old(selectedFile).value)) && isAnalyzing
      // while the request is in flight the page still holds its file and the button is disabled
      ensures isAnalyzing ==> selectedFile.Some? && !AnalyzeEnabled()
      ensures selectedFile == old(selectedFile) && result == old(result)
      ensures dragActive == old(dragActive)
    {
      if selectedFile.None? {
        return None;
      }
      isAnalyzing := true;
      request := Some(AnalysisRequest(UploadField, selectedFile.value));
    }

    /** The part of `analyzeImage` after the request settles: the normalized record of
        that settlement, and nothing from the earlier state, becomes the result, and the
        page stops being busy. */
    method Settle(outcome: Outcome)
      requires Valid()
      modifies this
      ensures Valid()
      ensures result == Some(Normalize(outcome)) && !isAnalyzing
      ensures selectedFile == old(selectedFile) && dragActive == old(dragActive)
    {
      result := Some(Normalize(outcome));
      isAnalyzing := false;
    }

    /** `analyzeImage` run to completion, with `outcome` standing for whatever the
        network and the server produced. */
    method AnalyzeImage(outcome: Outcome)
      requires Valid()
      modifies this
      ensures Valid()
      ensures old(selectedFile).None? ==> unchanged(this)
      ensures old(selectedFile).Some? ==> result == Some(Normalize(outcome)) && !isAnalyzing
      ensures selectedFile == old(selectedFile) && dragActive == old(dragActive)
    {
      var request := StartAnalyze();
      if request.None? {
        return;
      }
      Settle(outcome);
    }

    /** The Analyze button is rendered only while a file is held, and is disabled while busy. */
    predicate AnalyzeEnabled()
      reads this
    {
      selectedFile.Some? && !isAnalyzing
    }

    /** A click on the Analyze button: it reaches `analyzeImage` only when the button is
        enabled, so a click during an analysis dispatches nothing. */
    method ClickAnalyze() returns (request: Option<AnalysisRequest>)
      requires Valid()
      modifies this
      ensures Valid()
      ensures request.Some? <==> old(AnalyzeEnabled())
      ensures !old(AnalyzeEnabled()) ==> unchanged(this)
      ensures old(AnalyzeEnabled()) ==>
                request == Some(AnalysisRequest(UploadField, old(selectedFile).value)) && isAnalyzing
      ensures selectedFile == old(selectedFile) && result == old(result)
      ensures dragActive == old(dragActive)
    {
      if !AnalyzeEnabled() {
        return None;
      }
      request := StartAnalyze();
    }

    /** `resetAnalysis`: file, result and busy flag are cleared; the drag highlight is left alone. */
    method ResetAnalysis()
      requires Valid()
      modifies this
      ensures Valid()
      ensures selectedFile == None && result == None && !isAnalyzing
      ensures dragActive == old(dragActive)
    {
      selectedFile := None;
      result := None;
      isAnalyzing := false;
    }
  }

  /** A positive scan: an image is dropped and the server answers class 1 with score 0.87. */
  method ScenarioTumorDetected()
  {
    var app := new DetectionApp();
    var scan := File("scan.png", 204800, "image/png");
    app.HandleDrop([scan]);
    assert app.selectedFile == Some(scan);
    app.AnalyzeImage(Ok(1, 8700));
    assert app.result == Some(AnalysisResult(true, 87, TumorMessage));
    assert app.selectedFile == Some(scan) && !app.isAnalyzing;
  }

  /** A negative scan picked with the file picker: score 0.995 rounds up to 100. */
  method ScenarioNoTumorRoundsUp()
  {
    var app := new DetectionApp();
    var scan := File("scan.jpg", 102400, "image/jpeg");
    app.HandleFileSelect([scan]);
    app.AnalyzeImage(Ok(0, 9950));
    assert app.result == Some(AnalysisResult(false, 100, NoTumorMessage));
  }

  /** A PDF dropped on the zone is ignored; analysis then has nothing to send. */
  method ScenarioNonImageIgnored()
  {
    var app := new DetectionApp();
    var notes := File("notes.pdf", 4096, "application/pdf");
    assert !IsImageType(notes.mimeType) by {
      assert notes.mimeType[..|ImagePrefix|] != ImagePrefix by {
        assert notes.mimeType[0] != ImagePrefix[0];
      }
    }
    app.HandleDrop([notes]);
    assert app.selectedFile == None && app.result == None;
    var request := app.StartAnalyze();
    assert request == None && !app.isAnalyzing;
  }

  /** Failures: an unreachable server, then an error body, then a reset. */
  method ScenarioFailuresAndReset()
  {
    var app := new DetectionApp();
    var scan := File("scan.png", 1024, "image/png");
    app.HandleDrag("dragenter");
    app.HandleDrop([scan]);
    assert !app.dragActive;
    app.AnalyzeImage(Threw);
    assert app.result == Some(AnalysisResult(false, 0, NetworkErrorMessage));
    app.AnalyzeImage(NotOk(Some("file too large")));
    assert app.result == Some(AnalysisResult(false, 0, "file too large"));
    var request := app.ClickAnalyze();
    assert request == Some(AnalysisRequest(UploadField, scan)) && app.isAnalyzing;
    var again := app.ClickAnalyze();
    assert again == None;
    app.ResetAnalysis();
    assert app.selectedFile == None && app.result == None && !app.isAnalyzing;
  }
}
