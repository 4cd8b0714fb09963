/**
 * The whole round trip: the backend answers `POST /classify`, the client hook turns the
 * answer (or its failure) into a result, and the results panel looks up the bundle for
 * the result's face shape.
 */
module Pipeline {
  import opened Wrappers
  import opened Wire
  import Haircuts
  import Backend
  import FaceClassifier
  import ResultsPanel

  /** How the browser sees a backend response: `response.ok` and the body, or the status
      with its reason phrase and the body's text. */
  function Delivered(resp: Response, statusText: string, bodyText: string): (o: FaceClassifier.Outcome)
    ensures o.Ok? <==> IsOk(resp.status)
    ensures o.Ok? ==> o.body == resp.body
    ensures o.HttpError? ==> o.status == resp.status
  {
    if IsOk(resp.status) then FaceClassifier.Ok(resp.body)
    else FaceClassifier.HttpError(resp.status, statusText, bodyText)
  }

  /** A classification from image to bundle.  The client posts `{"image": imageData}`; the
      backend's answer reaches the client as `Delivered(resp, statusText, bodyText)`, where
      `statusText` and `bodyText` are what the HTTP layer sends with a non-OK status.  A backend
      answer of 200 is shown as the backend ranked it; every other answer, the backend's own
      fallback included, is replaced by the client's fallback. */
  method Analyze(env: Option<string>, imageData: string, modelLoaded: bool,
                 infer: string -> Backend.Inference, statusText: string, bodyText: string,
                 draws: FaceClassifier.Draws)
    returns (resp: Response, r: FaceClassifier.ClassificationResult, bundle: Haircuts.Bundle)
    requires FaceClassifier.ValidDraws(draws)
    ensures resp.status in {200, 500}
    ensures resp.status == 200 ==> r == FaceClassifier.PassThrough(resp.body) && !r.isFallback
    ensures resp.status != 200 ==> r == FaceClassifier.Fallback(draws)
    ensures r.isFallback <==> resp.status != 200
    ensures r.faceShape.Some? && bundle == Haircuts.GetRecommendations(r.faceShape.value)
    ensures |bundle.haircuts| == 4
    ensures Haircuts.GetRecommendationsAsWritten(r.faceShape.value) == Haircuts.Own(bundle)
  {
    var client := new FaceClassifier.Classifier(env);
    var request := Backend.JsonObject(map["image" := imageData]);
    resp := Backend.Classify(modelLoaded, request, infer);
    if resp.status == 200 {
      ServerSuccess(imageData, infer, resp);
    }
    var sent;
    ghost var pending;
    r, sent, pending := client.Classify(imageData, Delivered(resp, statusText, bodyText), draws);
    bundle := Haircuts.GetRecommendations(r.faceShape.value);
    if resp.status != 200 {
      FallbackLabel(draws);
    }
    AsWrittenAgrees(r.faceShape.value);
  }

  /** A 200 from the backend is a successful prediction response: it names a face shape,
      carries no error and is not a fallback. */
  lemma ServerSuccess(imageData: string, infer: string -> Backend.Inference, resp: Response)
    requires resp.status == 200
    requires match infer(Backend.StripDataUrl(imageData))
      case Raised(reason) => resp == Response(500, ErrorBody(reason, Some(true)))
      case Scores(predictions) => resp == Backend.PredictionResponse(predictions)
    ensures resp.body.faceShape.Some? && resp.body.error.None? && resp.body.isFallback == Some(false)
    ensures resp.body.faceShape.value in Backend.FaceShapes
  {
    var predictions := infer(Backend.StripDataUrl(imageData)).predictions;
    if predictions == [] {
      Backend.EmptyPredictionsFail();
    } else {
      Backend.PredictionResponseFacts(predictions);
    }
  }

  /** A fallback shape is one of the backend's labels too. */
  lemma FallbackLabel(d: FaceClassifier.Draws)
    requires FaceClassifier.ValidDraws(d)
    ensures FaceClassifier.Fallback(d).faceShape.value in Backend.FaceShapes
  {
    FaceClassifier.FallbackFacts(d);
    assert FaceClassifier.FallbackShapes == Backend.FaceShapes[..5];
  }

  /** The client's fallback draws from exactly the shapes the recommendation table is keyed by,
      so a fallback shape always gets its own bundle and its own icon and traits. */
  lemma FallbackShapesHaveBundles(d: FaceClassifier.Draws)
    requires FaceClassifier.ValidDraws(d)
    ensures var shape := FaceClassifier.Fallback(d).faceShape.value;
      && shape in Haircuts.HaircutRecommendations
      && Haircuts.GetRecommendations(shape) == Haircuts.HaircutRecommendations[shape]
      && ResultsPanel.ShapeInfoFor(shape) == Haircuts.Own(Haircuts.FaceShapeInfo[shape])
  {
    assert FaceClassifier.FallbackShapes == Haircuts.ShapeNames;
    var shape := FaceClassifier.Fallback(d).faceShape.value;
    ResultsPanel.CanonicalLabelsAgree(shape);
  }

  /** Five of the backend's seven labels have a bundle of their own; "Oblong" and "Triangle"
      have none and are shown the Oval bundle and the Oval icon and traits. */
  lemma BackendLabelsResolve(name: string)
    requires name in Backend.FaceShapes
    ensures name in Haircuts.ShapeNames ==>
      Haircuts.GetRecommendations(name) == Haircuts.HaircutRecommendations[name]
    ensures name !in Haircuts.ShapeNames ==>
      && (name == "Oblong" || name == "Triangle")
      && Haircuts.GetRecommendations(name) == Haircuts.OvalBundle
      && ResultsPanel.ShapeInfoFor(name) == Haircuts.Own(Haircuts.FaceShapeInfo["Oval"])
  {
    if name in Haircuts.ShapeNames {
      ResultsPanel.CanonicalLabelsAgree(name);
    } else {
      assert name == "Oblong" || name == "Triangle";
      ExtraLabelShownAsOval(name);
    }
  }

  lemma ExtraLabelShownAsOval(name: string)
    requires name == "Oblong" || name == "Triangle"
    ensures Haircuts.GetRecommendations(name) == Haircuts.OvalBundle
    ensures ResultsPanel.ShapeInfoFor(name) == Haircuts.Own(Haircuts.FaceShapeInfo["Oval"])
  {
    ExtraLabelIsNoKey(name);
    assert Haircuts.IsNormalized(name);
    Haircuts.NormalizedFixed(name);
  }

  lemma ExtraLabelIsNoKey(name: string)
    requires name == "Oblong" || name == "Triangle"
    ensures name !in Haircuts.HaircutRecommendations && name !in Haircuts.FaceShapeInfo
    ensures name !in Haircuts.ObjectPrototypeProperties
  {
    assert Haircuts.HaircutRecommendations.Keys == {"Oval", "Round", "Square", "Heart", "Diamond"};
    assert Haircuts.FaceShapeInfo.Keys == {"Oval", "Round", "Square", "Heart", "Diamond"};
  }

  /** Scores whose unique maximum is at index 5 make the backend answer "Oblong", which the
      results panel shows with the Oval bundle. */
  lemma OblongIsShownAsOval(predictions: seq<nat>)
    requires |predictions| > 5
    requires forall k :: 0 <= k < |predictions| && k != 5 ==> predictions[k] < predictions[5]
    ensures var resp := Backend.PredictionResponse(predictions);
      && resp.status == 200
      && resp.body.faceShape == Some("Oblong")
      && Haircuts.GetRecommendations(resp.body.faceShape.value) == Haircuts.OvalBundle
  {
    OblongWins(predictions);
    ExtraLabelShownAsOval("Oblong");
  }

  /** Scores whose unique maximum is at index 5 make the backend answer 200 with "Oblong". */
  lemma OblongWins(predictions: seq<nat>)
    requires |predictions| > 5
    requires forall k :: 0 <= k < |predictions| && k != 5 ==> predictions[k] < predictions[5]
    ensures var resp := Backend.PredictionResponse(predictions);
      resp.status == 200 && resp.body.faceShape == Some("Oblong")
  {
    Backend.TopLabel(predictions);
    var top := Backend.TopIndices(predictions)[0];
    assert predictions[5] <= predictions[top];
    assert top == 5;
  }

  /** For every label the backend or the fallback can produce, the lookup as JavaScript
      performs it finds the table's own bundle, the one the corrected lookup returns; the
      "__proto__" escape cannot arise in this app. */
  lemma AsWrittenAgrees(name: string)
    requires name in Backend.FaceShapes
    ensures Haircuts.GetRecommendationsAsWritten(name) == Haircuts.Own(Haircuts.GetRecommendations(name))
  {
    assert Haircuts.IsNormalized(name);
    Haircuts.NormalizedFixed(name);
    Haircuts.OnlyProtoEscapes(name);
  }
}
