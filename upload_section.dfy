/**
 * The upload widget: it holds the chosen file, its preview, a loading flag, the last result
 * and the last error, and changes them when a file is chosen, an analysis runs or the user
 * resets. The prediction call is an input: its outcome is passed in.
 */
module UploadSection {
  import opened Common
  import opened Prediction

  const Accepted: seq<string> := ["image/jpeg", "image/png", "image/jpg"]

  const MaxSize: nat := 10 * 1024 * 1024

  const TypeError: string := "Only JPG, JPEG, and PNG files are accepted."

  const SizeError: string := "File size must be under 10 MB."

  const AnalysisError: string := "Analysis failed. Make sure the backend is running."

  /** A file the browser hands over: its name, MIME type and size in bytes. */
  datatype SelectedFile = SelectedFile(name: string, mimeType: string, size: nat)

  /** The left-hand pane: the drop zone until a preview exists, then the preview with its controls. */
  datatype Pane =
    | DropZone
    | PreviewPane(image: string, analyzeButton: bool, spinner: bool)

  class Widget {
    var file: Option<SelectedFile>
    var preview: Option<string>
    var loading: bool
    var result: Option<PredictionResult>
    var error: Option<string>

    constructor ()
      ensures file == None && preview == None && !loading && result == None && error == None
    {
      file, preview, loading, result, error := None, None, false, None, None;
    }

    /**
     * `handleFile`: clears the error and the result, then rejects a file whose type is not
     * accepted, then one larger than the bound; an accepted file becomes the current file.
     * A rejected file leaves the previous file and preview in place.
     */
    method HandleFile(f: SelectedFile)
      modifies this
      ensures result == None
      ensures loading == old(loading) && preview == old(preview)
      ensures f.mimeType !in Accepted ==> error == Some(TypeError) && file == old(file)
      ensures f.mimeType in Accepted && f.size > MaxSize ==> error == Some(SizeError) && file == old(file)
      ensures f.mimeType in Accepted && f.size <= MaxSize ==> error == None && file == Some(f)
    {
      error := None;
      result := None;
      if f.mimeType !in Accepted {
        error := Some(TypeError);
        return;
      }
      if f.size > MaxSize {
        error := Some(SizeError);
        return;
      }
      file := Some(f);
      // the preview arrives later, when the file reader calls back: see PreviewLoaded
    }

    /** The file reader's `onload` callback: the data URL becomes the preview. */
    method PreviewLoaded(dataUrl: string)
      modifies this
      ensures preview == Some(dataUrl)
      ensures file == old(file) && loading == old(loading) && result == old(result) && error == old(error)
    {
      preview := Some(dataUrl);
    }

    /** The part of `analyze` before the prediction is awaited. */
    method BeginAnalyze() returns (started: bool)
      modifies this
      ensures started <==> old(file).Some?
      ensures !started ==> unchanged(this)
      ensures started ==> loading && error == None
      ensures file == old(file) && preview == old(preview) && result == old(result)
      ensures started ==> !UploadPane().PreviewPane? || !UploadPane().analyzeButton
    {
      if file.None? {
        return false;
      }
      loading := true;
      error := None;
      started := true;
    }

    /** The part of `analyze` after the prediction settles, including its `finally`. */
    method FinishAnalyze(outcome: Outcome)
      modifies this
      ensures !loading
      ensures outcome.Resolved? ==> result == Some(outcome.result) && error == old(error)
      ensures outcome.Rejected? ==> error == Some(AnalysisError) && result == old(result)
      ensures file == old(file) && preview == old(preview)
    {
      match outcome {
        case Resolved(res) =>
          result := Some(res);
        case Rejected(_) =>
          error := Some(AnalysisError);
      }
      loading := false;
    }

    /**
     * `analyze`: nothing without a file; otherwise loading while the prediction runs, then
     * the result or the fixed failure message, and loading off in either case.
     */
    method Analyze(outcome: Outcome)
      modifies this
      ensures old(file).None? ==> unchanged(this)
      ensures old(file).Some? ==> !loading
      ensures old(file).Some? && outcome.Resolved? ==> result == Some(outcome.result) && error == None
      ensures old(file).Some? && outcome.Rejected? ==> error == Some(AnalysisError) && result == old(result)
      ensures old(file.Some? && result.None?) ==> (result.Some? <==> error.None?)
      ensures file == old(file) && preview == old(preview)
    {
      var started := BeginAnalyze();
      if started {
        FinishAnalyze(outcome);
      }
    }

    /** `reset`: forgets the file, the preview, the result and the error; loading is kept. */
    method Reset()
      modifies this
      ensures file == None && preview == None && result == None && error == None
      ensures loading == old(loading)
    {
      file := None;
      preview := None;
      result := None;
      error := None;
    }

    /**
     * The pane the widget shows: the Analyze button only over a preview with no result and
     * nothing loading, the spinner exactly while loading.
     */
    function UploadPane(): (p: Pane)
      reads this
      ensures p.DropZone? <==> preview.None?
      ensures p.PreviewPane? ==> p.image == preview.value
      ensures p.PreviewPane? ==> (p.analyzeButton <==> result.None? && !loading)
      ensures p.PreviewPane? ==> p.spinner == loading
    {
      if preview.None? then DropZone
      else PreviewPane(preview.value, result.None? && !loading, loading)
    }
  }
}
