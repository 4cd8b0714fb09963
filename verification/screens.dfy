/**
 * The page state of `App`: the captured image, the analysis result and whether an
 * analysis is running, the four handlers that update them, and the choice of the
 * screen (capture, analyzer or results) that the render makes from them.
 */
module Screens {
  import opened Wrappers
  import opened FaceClassifier

  /** The three screens of the analyzer section. */
  datatype Screen = Capture | Analyzer | Results

  /** A captured image is truthy when present and not the empty string (a data URL). */
  function HasImage(capturedImage: Option<string>): (r: bool)
    ensures capturedImage.None? ==> !r
    ensures capturedImage == Some("") ==> !r
    ensures capturedImage.Some? && capturedImage.value != "" ==> r
  {
    capturedImage.Some? && capturedImage.value != ""
  }

  /** `!capturedImage ? <ImageCapture> : !analysisResult ? <FaceAnalyzer> : <ResultsPanel>`;
      a result object is always truthy. */
  function SelectScreen(capturedImage: Option<string>, analysisResult: Option<ClassificationResult>): (r: Screen)
    ensures r == Capture <==> !HasImage(capturedImage)
    ensures r == Analyzer <==> HasImage(capturedImage) && analysisResult.None?
    ensures r == Results <==> HasImage(capturedImage) && analysisResult.Some?
  {
    if !HasImage(capturedImage) then Capture
    else if analysisResult.None? then Analyzer
    else Results
  }

  /** The state of `App`. */
  class App {
    var capturedImage: Option<string>
    var analysisResult: Option<ClassificationResult>
    var isAnalyzing: bool

    /** The screen the render shows for the current state. */
    function Screen(): Screen
      reads this
    {
      SelectScreen(capturedImage, analysisResult)
    }

    /** The three `useState` initial values: no image, no result, not analysing. */
    constructor()
      ensures capturedImage == None && analysisResult == None && !isAnalyzing
      ensures Screen() == Capture
    {
      capturedImage := None;
      analysisResult := None;
      isAnalyzing := false;
    }

    /** `handleImageCapture(imageData)`: keep the image, drop any earlier result. */
    method HandleImageCapture(imageData: string)
      modifies this
      ensures capturedImage == Some(imageData) && analysisResult == None
      ensures isAnalyzing == old(isAnalyzing)
      ensures Screen() == if imageData == "" then Capture else Analyzer
    {
      capturedImage := Some(imageData);
      analysisResult := None;
    }

    /** `handleAnalysisComplete(result)`: keep the result and stop analysing. */
    method HandleAnalysisComplete(result: ClassificationResult)
      modifies this
      ensures analysisResult == Some(result) && !isAnalyzing
      ensures capturedImage == old(capturedImage)
      ensures Screen() == if HasImage(capturedImage) then Results else Capture
    {
      analysisResult := Some(result);
      isAnalyzing := false;
    }

    /** `handleStartAnalysis()`: only the analysing flag changes, so the screen stays. */
    method HandleStartAnalysis()
      modifies this
      ensures isAnalyzing
      ensures capturedImage == old(capturedImage) && analysisResult == old(analysisResult)
      ensures Screen() == old(Screen())
    {
      isAnalyzing := true;
    }

    /** `handleReset()`: back to the initial state and so to the capture screen. */
    method HandleReset()
      modifies this
      ensures capturedImage == None && analysisResult == None && !isAnalyzing
      ensures Screen() == Capture
    {
      capturedImage := None;
      analysisResult := None;
      isAnalyzing := false;
    }
  }

  /** A session through the page: capture an image, start the analysis, complete it with
      `result`, then start over.  Returns the screen after each step, the initial one first. */
  method Session(imageData: string, result: ClassificationResult) returns (screens: seq<Screen>)
    requires imageData != ""
    ensures screens == [Capture, Analyzer, Analyzer, Results, Capture]
  {
    var app := new App();
    screens := [app.Screen()];
    app.HandleImageCapture(imageData);
    screens := screens + [app.Screen()];
    app.HandleStartAnalysis();
    screens := screens + [app.Screen()];
    app.HandleAnalysisComplete(result);
    screens := screens + [app.Screen()];
    app.HandleReset();
    screens := screens + [app.Screen()];
  }
}
