/**
 * The `POST /classify` handler of backend/app.py.  The neural network, base64
 * and image decoding, preprocessing and softmax are one function parameter,
 * `infer`, from the stripped image payload to either the model's scores or
 * the text of the exception raised on the way.  Scores are the softmax
 * outputs as the handler reports them: `round(p * 100, 1)`, written here in
 * tenths of a percent.
 */
module Backend {
  import opened Wrappers
  import opened Wire

  /** `FACE_SHAPES`: the model's class labels, indexed by output position. */
  const FaceShapes: seq<string> := ["Oval", "Round", "Square", "Heart", "Diamond", "Oblong", "Triangle"]

  /** The label used when the best index has no entry in `FaceShapes`. */
  const DefaultLabel: string := "Oval"

  /** What `str(e)` gives for `top_indices[0]` on an empty numpy array. */
  const EmptyIndexError: string := "index 0 is out of bounds for axis 0 with size 0"

  /** `request.json` as far as the handler looks at it.  `JsonObject` is a body for which
      `'image' in data` is a key test: a JSON object, with its string-valued fields (the
      handler reads no other field), or a JSON array or string that does not contain
      "image", which behaves as an object without the key (`JsonObject(map[])`).
      `Unusable` is a body on which the handler raises, with the exception's text: a body
      that is not JSON, `null`, a number or a boolean, an object whose `image` is not a
      string, or an array or string that does contain "image" (`data['image']` then
      raises). */
  datatype RequestBody = JsonObject(fields: map<string, string>) | Unusable(reason: string)

  /** The outcome of decoding the image and running the model on it. */
  datatype Inference = Scores(predictions: seq<nat>) | Raised(reason: string)

  // ---------------------------------------------------------------------------
  // Data-URL prefix stripping
  // ---------------------------------------------------------------------------

  /** Position of the first comma in `s`, or `|s|` when there is none. */
  function FirstComma(s: string): (i: nat)
    ensures i <= |s|
    ensures i < |s| ==> s[i] == ','
    ensures forall k :: 0 <= k < i ==> s[k] != ','
  {
    if s == [] || s[0] == ',' then 0 else 1 + FirstComma(s[1..])
  }

  /** `image_data.split(',')[1] if ',' in image_data else image_data`: the text between the
      first and the second comma (or the end), or the whole string when it has no comma. */
  function StripDataUrl(image: string): (r: string)
    ensures ',' !in image ==> r == image
    ensures ',' in image ==> ',' !in r
    ensures ',' in image ==> exists i :: 0 <= i < |image| && image[i] == ',' && ',' !in image[..i] && FieldAt(image, i + 1, r)
  {
    var i := FirstComma(image);
    if i == |image| then image
    else
      var rest := image[i + 1..];
      var r := rest[..FirstComma(rest)];
      assert ',' !in image[..i];
      assert image[i + 1..i + 1 + |r|] == r;
      r
  }

  /** `field` stands in `s` from position `start` up to the next comma or the end. */
  ghost predicate FieldAt(s: string, start: nat, field: string) {
    && start + |field| <= |s|
    && s[start..start + |field|] == field
    && (start + |field| == |s| || s[start + |field|] == ',')
  }

  /** A data URL as a browser's FileReader or a webcam snapshot produces it. */
  function DataUrl(mime: string, payload: string): string {
    "data:" + mime + ";base64," + payload
  }

  /** Stripping recovers the base64 payload of a data URL. */
  lemma StripDataUrlRecoversPayload(mime: string, payload: string)
    requires ',' !in mime && ',' !in payload
    ensures StripDataUrl(DataUrl(mime, payload)) == payload
  {
    var url := DataUrl(mime, payload);
    var head := "data:" + mime + ";base64";
    assert url == head + "," + payload;
    assert ',' !in head;
    assert FirstComma(url) == |head| by {
      assert forall k :: 0 <= k < |head| ==> url[k] == head[k];
      assert url[|head|] == ',';
    }
    assert url[|head| + 1..] == payload;
    assert FirstComma(payload) == |payload|;
  }

  // ---------------------------------------------------------------------------
  // Ranking: np.argsort(predictions)[::-1]
  // ---------------------------------------------------------------------------

  predicate InRange(order: seq<nat>, n: nat) {
    forall k :: 0 <= k < |order| ==> order[k] < n
  }

  predicate NoDuplicates(order: seq<nat>) {
    forall a, b :: 0 <= a < b < |order| ==> order[a] != order[b]
  }

  /** Indices into `predictions` listed by non-increasing prediction. */
  predicate SortedByScore(predictions: seq<nat>, order: seq<nat>)
    requires InRange(order, |predictions|)
  {
    forall a, b :: 0 <= a < b < |order| ==> predictions[order[a]] >= predictions[order[b]]
  }

  /** Inserts index `i` into a ranking, after every index with an equal or higher prediction. */
  function Insert(predictions: seq<nat>, order: seq<nat>, i: nat): (r: seq<nat>)
    requires InRange(order, |predictions|) && i < |predictions|
    requires SortedByScore(predictions, order)
    requires NoDuplicates(order) && i !in order
    ensures |r| == |order| + 1
    ensures InRange(r, |predictions|)
    ensures forall x :: x in r <==> x in order || x == i
    ensures SortedByScore(predictions, r)
    ensures NoDuplicates(r)
  {
    if order == [] then [i]
    else if predictions[i] > predictions[order[0]] then [i] + order
    else
      assert forall j :: 0 <= j < |order| - 1 ==> order[1..][j] == order[j + 1];
      var tail := Insert(predictions, order[1..], i);
      assert forall x :: x in order <==> x == order[0] || x in order[1..];
      assert order[0] !in tail;
      assert forall j :: 0 <= j < |order| - 1 ==> predictions[order[1..][j]] <= predictions[order[0]];
      assert forall x :: x in tail ==> predictions[x] <= predictions[order[0]];
      assert forall b :: 0 <= b < |tail| ==> tail[b] in tail;
      [order[0]] + tail
  }

  /** A ranking of the first `n` indices by non-increasing prediction. */
  function RankFirst(predictions: seq<nat>, n: nat): (r: seq<nat>)
    requires n <= |predictions|
    ensures |r| == n && InRange(r, n) && NoDuplicates(r)
    ensures forall x: int :: x in r <==> 0 <= x < n
    ensures SortedByScore(predictions, r)
  {
    if n == 0 then []
    else
      var r := Insert(predictions, RankFirst(predictions, n - 1), n - 1);
      assert forall k :: 0 <= k < |r| ==> r[k] in r;
      r
  }

  /** `np.argsort(predictions)[::-1]`: every index exactly once, by non-increasing prediction. */
  function RankIndices(predictions: seq<nat>): (r: seq<nat>)
    ensures |r| == |predictions| && InRange(r, |predictions|) && NoDuplicates(r)
    ensures forall x: int :: x in r <==> 0 <= x < |predictions|
    ensures SortedByScore(predictions, r)
  {
    RankFirst(predictions, |predictions|)
  }

  /** The head of a full ranking is an index of the highest prediction. */
  lemma RankHeadIsMax(predictions: seq<nat>, order: seq<nat>)
    requires InRange(order, |predictions|) && SortedByScore(predictions, order)
    requires forall x: int :: x in order <==> 0 <= x < |predictions|
    ensures |order| > 0 ==> forall k :: 0 <= k < |predictions| ==> predictions[k] <= predictions[order[0]]
  {
    if |order| > 0 {
      forall k | 0 <= k < |predictions| ensures predictions[k] <= predictions[order[0]] {
        assert k in order;
        var j :| 0 <= j < |order| && order[j] == k;
      }
    }
  }

  function Min(a: nat, b: nat): nat {
    if a < b then a else b
  }

  /** `top_indices`: the ranking cut to `min(len(predictions), len(FACE_SHAPES))` entries. */
  function TopIndices(predictions: seq<nat>): (r: seq<nat>)
    ensures |r| == Min(|predictions|, |FaceShapes|)
    ensures InRange(r, |predictions|)
  {
    RankIndices(predictions)[..Min(|predictions|, |FaceShapes|)]
  }

  /** `top_indices` lists distinct indices by non-increasing prediction, starts with an index
      of the highest prediction, and holds every index when there are at most seven. */
  lemma TopIndicesFacts(predictions: seq<nat>)
    ensures var r := TopIndices(predictions);
      && NoDuplicates(r) && SortedByScore(predictions, r)
      && (|predictions| <= |FaceShapes| ==> forall x: int :: x in r <==> 0 <= x < |predictions|)
      && (|r| > 0 ==> forall k :: 0 <= k < |predictions| ==> predictions[k] <= predictions[r[0]])
  {
    var all := RankIndices(predictions);
    var r := TopIndices(predictions);
    RankHeadIsMax(predictions, all);
    assert forall k :: 0 <= k < |r| ==> r[k] == all[k];
    assert |predictions| <= |FaceShapes| ==> r == all;
  }

  /** `top_indices` keeps the best: an index left out scores no higher than any index kept. */
  lemma TopIndicesKeepBest(predictions: seq<nat>)
    ensures var r := TopIndices(predictions);
      forall a, b :: 0 <= a < |r| && 0 <= b < |predictions| && b !in r ==> predictions[b] <= predictions[r[a]]
  {
    var all := RankIndices(predictions);
    var r := TopIndices(predictions);
    forall a, b | 0 <= a < |r| && 0 <= b < |predictions| && b !in r
      ensures predictions[b] <= predictions[r[a]]
    {
      assert b in all;
      var j :| 0 <= j < |all| && all[j] == b;
      assert forall k :: 0 <= k < |r| ==> r[k] == all[k] && r[k] in r;
      assert j >= |r|;
      assert predictions[all[a]] >= predictions[all[j]];
    }
  }

  /** A prediction in tenths of a percent as the reported score `round(p * 100, 1)`. */
  function Percent(tenths: nat): real {
    tenths as real / 10.0
  }

  /** The `all_results` entry for index `idx`. */
  function Entry(predictions: seq<nat>, idx: nat): ScoreEntry
    requires idx < |predictions| && idx < |FaceShapes|
  {
    ScoreEntry(FaceShapes[idx], Percent(predictions[idx]))
  }

  /** `all_results` after visiting `indices` in order: one entry per index that has a label. */
  function Entries(predictions: seq<nat>, indices: seq<nat>): (r: seq<ScoreEntry>)
    requires InRange(indices, |predictions|)
    ensures |r| <= |indices|
    ensures (forall k :: 0 <= k < |indices| ==> indices[k] < |FaceShapes|) ==> |r| == |indices|
  {
    if indices == [] then []
    else
      var last := indices[|indices| - 1];
      Entries(predictions, indices[..|indices| - 1])
        + if last < |FaceShapes| then [Entry(predictions, last)] else []
  }

  /** Scores in `entries` never increase. */
  predicate NonIncreasing(entries: seq<ScoreEntry>) {
    forall a, b :: 0 <= a < b < |entries| ==> entries[a].score >= entries[b].score
  }

  /** `all_results` has at most one entry per visited index, every label comes from
      `FACE_SHAPES`, and its scores follow the ranking's order; the first entry is that
      of the first index when that index has a label. */
  lemma {:induction false} EntriesFacts(predictions: seq<nat>, indices: seq<nat>)
    requires InRange(indices, |predictions|) && SortedByScore(predictions, indices)
    ensures |Entries(predictions, indices)| <= |indices|
    ensures forall e :: e in Entries(predictions, indices) ==> e.shape in FaceShapes
    ensures NonIncreasing(Entries(predictions, indices))
    ensures |indices| > 0 && indices[0] < |FaceShapes| ==>
      |Entries(predictions, indices)| > 0 && Entries(predictions, indices)[0] == Entry(predictions, indices[0])
    ensures forall e :: e in Entries(predictions, indices) ==>
      exists j :: 0 <= j < |indices| && indices[j] < |FaceShapes| && e == Entry(predictions, indices[j])
  {
    if indices != [] {
      var init := indices[..|indices| - 1];
      var last := indices[|indices| - 1];
      EntriesFacts(predictions, init);
      var e0 := Entries(predictions, init);
      var e := Entries(predictions, indices);
      forall x | x in e0
        ensures exists j :: 0 <= j < |indices| && indices[j] < |FaceShapes| && x == Entry(predictions, indices[j])
        ensures x.score >= Percent(predictions[last])
      {
        var j :| 0 <= j < |init| && init[j] < |FaceShapes| && x == Entry(predictions, init[j]);
        assert indices[j] == init[j];
        assert predictions[indices[j]] >= predictions[last];
      }
      if last < |FaceShapes| {
        assert e == e0 + [Entry(predictions, last)];
      } else {
        assert e == e0;
      }

      if |init| > 0 && indices[0] < |FaceShapes| {
        assert init[0] == indices[0];
      }
    }
  }

  /** Every visited index that has a label contributes its entry to `all_results`. */
  lemma {:induction false} EntriesComplete(predictions: seq<nat>, indices: seq<nat>)
    requires InRange(indices, |predictions|)
    ensures forall j :: 0 <= j < |indices| && indices[j] < |FaceShapes| ==>
      Entry(predictions, indices[j]) in Entries(predictions, indices)
  {
    if indices != [] {
      var init := indices[..|indices| - 1];
      var last := indices[|indices| - 1];
      EntriesComplete(predictions, init);
      var e0 := Entries(predictions, init);
      var e := Entries(predictions, indices);
      assert e == e0 + if last < |FaceShapes| then [Entry(predictions, last)] else [];
      forall j | 0 <= j < |indices| && indices[j] < |FaceShapes|
        ensures Entry(predictions, indices[j]) in e
      {
        if j < |init| {
          assert indices[j] == init[j];
          assert Entry(predictions, init[j]) in e0;
        }
      }
    }
  }

  // ---------------------------------------------------------------------------
  // The response
  // ---------------------------------------------------------------------------

  /** The response `classify()` gives once the model has produced `predictions`. */
  function PredictionResponse(predictions: seq<nat>): (r: Response)
    ensures r.status == 200 <==> predictions != []
    ensures r.status != 200 ==> r == Response(500, ErrorBody(EmptyIndexError, Some(true)))
  {
    var topIndices := TopIndices(predictions);
    if topIndices == [] then Response(500, ErrorBody(EmptyIndexError, Some(true)))
    else
      var top := topIndices[0];
      var topShape := if top < |FaceShapes| then FaceShapes[top] else DefaultLabel;
      Response(200, Body(Some(topShape), Some(predictions[top] / 10),
                         Some(Entries(predictions, topIndices)), Some(false), None))
  }

  /** Empty model output makes `top_indices[0]` raise, which the handler turns into a 500. */
  lemma EmptyPredictionsFail()
    ensures PredictionResponse([]) == Response(500, ErrorBody(EmptyIndexError, Some(true)))
  {
  }

  /** A successful response: status 200, not a fallback, at most `min(len(predictions), 7)`
      results in non-increasing score order, every label from `FACE_SHAPES`, and the
      confidence is the best-ranked prediction truncated to a whole percent, so no
      prediction truncated to a whole percent exceeds it. The top `allResults` score keeps
      one decimal and may exceed the confidence by up to 0.9. */
  lemma PredictionResponseFacts(predictions: seq<nat>)
    requires predictions != []
    ensures var resp := PredictionResponse(predictions);
      && resp.status == 200 && resp.body.isFallback == Some(false) && resp.body.error.None?
      && resp.body.faceShape.Some? && resp.body.faceShape.value in FaceShapes
      && resp.body.allResults.Some?
      && |resp.body.allResults.value| <= Min(|predictions|, |FaceShapes|)
      && NonIncreasing(resp.body.allResults.value)
      && (forall e :: e in resp.body.allResults.value ==> e.shape in FaceShapes)
      && resp.body.confidence == Some(predictions[TopIndices(predictions)[0]] / 10)
      && (forall k :: 0 <= k < |predictions| ==> predictions[k] / 10 <= resp.body.confidence.value)
  {
    var topIndices := TopIndices(predictions);
    TopIndicesFacts(predictions);
    EntriesFacts(predictions, topIndices);
  }

  /** With at most seven predictions `all_results` lists every index, once each. */
  lemma SmallOutputListsEveryIndex(predictions: seq<nat>)
    requires 0 < |predictions| <= |FaceShapes|
    ensures var resp := PredictionResponse(predictions);
      && resp.body.allResults.Some?
      && |resp.body.allResults.value| == |predictions|
      && forall k :: 0 <= k < |predictions| ==> Entry(predictions, k) in resp.body.allResults.value
  {
    var r := TopIndices(predictions);
    TopIndicesFacts(predictions);
    EntriesComplete(predictions, r);
    forall k | 0 <= k < |predictions| ensures Entry(predictions, k) in Entries(predictions, r) {
      assert k in r;
      var j :| 0 <= j < |r| && r[j] == k;
    }
  }

  /** `faceShape` is the label of the best-ranked index and equals the first `allResults`
      label when that index has a label, and is 'Oval' otherwise. */
  lemma TopLabel(predictions: seq<nat>)
    requires predictions != []
    ensures var resp := PredictionResponse(predictions);
      var top := TopIndices(predictions)[0];
      && resp.body.allResults.Some?
      && resp.body.confidence == Some(predictions[top] / 10)
      && (forall k :: 0 <= k < |predictions| ==> predictions[k] <= predictions[top])
      && (top < |FaceShapes| ==>
            && |resp.body.allResults.value| > 0
            && resp.body.faceShape == Some(resp.body.allResults.value[0].shape)
            && resp.body.allResults.value[0] == ScoreEntry(FaceShapes[top], Percent(predictions[top])))
      && (top >= |FaceShapes| ==> resp.body.faceShape == Some(DefaultLabel))
  {
    TopIndicesFacts(predictions);
    EntriesFacts(predictions, TopIndices(predictions));
  }

  /** The `for idx in top_indices` loop: one labelled entry per index below `len(FACE_SHAPES)`. */
  method CollectResults(predictions: seq<nat>, topIndices: seq<nat>) returns (allResults: seq<ScoreEntry>)
    requires InRange(topIndices, |predictions|)
    ensures allResults == Entries(predictions, topIndices)
  {
    allResults := [];
    var k := 0;
    while k < |topIndices|
      invariant 0 <= k <= |topIndices|
      invariant allResults == Entries(predictions, topIndices[..k])
    {
      var idx := topIndices[k];
      ghost var visited := topIndices[..k + 1];
      assert visited[..k] == topIndices[..k] && visited[k] == idx;
      if idx < |FaceShapes| {
        allResults := allResults + [ScoreEntry(FaceShapes[idx], Percent(predictions[idx]))];
      }
      k := k + 1;
    }
    assert topIndices[..k] == topIndices;
  }

  /** `classify()` from the model's output on: rank, collect `all_results`, pick the top label. */
  method Respond(predictions: seq<nat>) returns (resp: Response)
    ensures resp == PredictionResponse(predictions)
  {
    var topIndices := TopIndices(predictions);
    var allResults := CollectResults(predictions, topIndices);
    if topIndices == [] {
      // top_indices[0] raises IndexError, caught by the handler's except clause
      resp := Response(500, ErrorBody(EmptyIndexError, Some(true)));
    } else {
      var top := topIndices[0];
      var topShape := if top < |FaceShapes| then FaceShapes[top] else DefaultLabel;
      resp := Response(200, Body(Some(topShape), Some(predictions[top] / 10), Some(allResults), Some(false), None));
    }
  }

  /** `POST /classify`. */
  method Classify(modelLoaded: bool, request: RequestBody, infer: string -> Inference) returns (resp: Response)
    ensures !modelLoaded ==> resp == Response(500, ErrorBody("Model not loaded", Some(true)))
    ensures modelLoaded && request.Unusable? ==> resp == Response(500, ErrorBody(request.reason, Some(true)))
    ensures modelLoaded && request.JsonObject? && "image" !in request.fields ==>
      resp == Response(400, ErrorBody("No image provided", None))
    ensures modelLoaded && request.JsonObject? && "image" in request.fields ==>
      match infer(StripDataUrl(request.fields["image"]))
      case Raised(reason) => resp == Response(500, ErrorBody(reason, Some(true)))
      case Scores(predictions) => resp == PredictionResponse(predictions)
    ensures resp.status in {200, 400, 500}
    ensures resp.body.isFallback == Some(true) <==> resp.status == 500
  {
    if !modelLoaded {
      return Response(500, ErrorBody("Model not loaded", Some(true)));
    }
    match request {
      case Unusable(reason) =>
        resp := Response(500, ErrorBody(reason, Some(true)));
      case JsonObject(fields) =>
        if "image" !in fields {
          return Response(400, ErrorBody("No image provided", None));
        }
        var imageData := fields["image"];
        if ',' in imageData {
          imageData := StripDataUrl(imageData);
        }
        match infer(imageData) {
          case Raised(reason) =>
            resp := Response(500, ErrorBody(reason, Some(true)));
          case Scores(predictions) =>
            resp := Respond(predictions);
        }
    }
  }
}
