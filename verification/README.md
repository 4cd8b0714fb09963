# SharpCuts face-shape classification, modelled in Dafny

SharpCuts is a web app that recommends haircuts. The user captures a photo. The
browser posts it to a Flask backend, which ranks the face-shape labels that a
neural network scores. The browser then shows the four haircuts recommended for
the winning shape. When the backend fails, the browser makes up a plausible
"demo" result instead.

This project models the logic of that round trip and proves what it promises.
It has one module per modelled source file, plus `Wrappers` (an `Option` type),
`Wire` and `Pipeline`.

- `Haircuts` (`haircuts.dfy`) models `src/data/haircuts.js`. It holds the
  recommendation and face-shape tables as constant data and models
  `getRecommendations`. The lookup capitalises the label's first letter,
  lower-cases the rest, and falls back to `Oval`. A second function models the
  lookup as JavaScript really performs it, where keys inherited from
  `Object.prototype` are visible too.
- `ResultsPanel` (`results_panel.dfy`) models the icon-and-traits lookup of
  `src/components/ResultsPanel.jsx`. Unlike `getRecommendations`, it is
  case-sensitive.
- `Wire` (`wire.dfy`) is the JSON shape exchanged over `POST /classify`.
- `Backend` (`backend.dfy`) models the `classify` handler of `backend/app.py`.
  It covers the guards, the data-URL stripping, the descending ranking
  (`np.argsort(...)[::-1]`, cut to seven), the `for` loop that collects
  `all_results`, and the choice of the top label.
- `FaceClassifier` (`classifier.dfy`) models `src/hooks/useFaceClassifier.js`.
  The class `Classifier` holds the hook's state (`isLoading`, `error`), and its
  `Classify` method is `classify`. Pure functions model the endpoint URL, the
  error policy and `getFallbackResult`.
- `Screens` (`screens.dfy`) models `src/App.jsx`. The class `App` has the three
  state fields and the four handlers, and a pure function picks the screen.
- `Pipeline` (`pipeline.dfy`) connects the backend, the client and the lookup.

Outside inputs are parameters:

- The network outcome is the `Outcome` datatype.
- `Math.random` is a list of already-drawn integers (`Draws`).
- The neural network is a function `infer` from the image payload to scores or
  an exception text.
- `VITE_API_URL` is an optional string.

Backend scores are natural numbers in tenths of a percent, which is what
`round(p * 100, 1)` reports.

Three behaviours of the code are easy to miss:

- The backend's label list has seven entries, so it can answer `Oblong` or
  `Triangle` (backend/app.py:62, 143). Neither has a bundle or an icon, so the
  browser shows both with the Oval bundle and Oval traits
  (`Pipeline.BackendLabelsResolve`).
- The client tests `response.ok`, which accepts every status from 200 to 299,
  not only 200.
- The client tests the body's `error` field for truthiness. An empty `error`
  string is falsy, so such a body counts as success.

## Model

| member | source | states |
|---|---|---|
| Haircuts.BundlesInOrder | src/data/haircuts.js:1-171 | the five bundles, listed in key order, are exactly the table's entries for Oval, Round, Square, Heart and Diamond |
| Haircuts.AllHaircuts | src/data/haircuts.js:3-171 | the table holds 20 haircuts, and no two of them share an `id` |
| Haircuts.TablesWellFormed | src/data/haircuts.js:1-202 | `haircutRecommendations` and `faceShapeInfo` have the same five keys; every bundle has exactly four haircuts; every shape has exactly three traits |
| Haircuts.HaircutIdsDistinct | src/data/haircuts.js:3-171 | two different table positions (shape, index) hold haircuts with different `id`s, so ids are valid React list keys |
| Haircuts.HaircutAt | src/data/haircuts.js:3-171 | haircut `i` of the `k`-th shape is entry `4k+i` of the flattened list |
| Haircuts.ToUpper | src/data/haircuts.js:176 | ASCII `toUpperCase` on one character: the result is never lower case, a lower-case letter maps to its capital, and anything else is unchanged |
| Haircuts.ToLower | src/data/haircuts.js:176 | ASCII `toLowerCase` on one character: the result is never upper case, a capital maps to its lower-case letter, and anything else is unchanged |
| Haircuts.LowerCase | src/data/haircuts.js:176 | `toLowerCase` on a string: same length, with every character lower-cased |
| Haircuts.Normalize | src/data/haircuts.js:176 | the normalised label has the same length, its first character upper-cased and every later character lower-cased |
| Haircuts.NormalizeIsNormalized | src/data/haircuts.js:176 | every normalised label has no lower-case head and no capital after the head |
| Haircuts.NormalizedFixed | src/data/haircuts.js:176 | normalisation leaves an already-normalised label unchanged |
| Haircuts.NormalizeIdempotent | src/data/haircuts.js:176 | normalising twice gives the same as normalising once |
| Haircuts.NormalizeIgnoresCase | src/data/haircuts.js:176 | two labels that are equal once lower-cased normalise to the same string |
| Haircuts.GetRecommendations | src/data/haircuts.js:175-178 | the result is always one of the table's bundles and has four haircuts; a label that does not normalise to one of the five shape names gets the Oval bundle |
| Haircuts.BundlesDistinct | src/data/haircuts.js:3-171 | the five bundles differ from one another |
| Haircuts.RecommendationSelection | src/data/haircuts.js:175-178 | for each shape name, the lookup returns that shape's bundle if and only if the label normalises to the name, or the name is Oval and the label normalises to no shape |
| Haircuts.RecommendationsIgnoreCase | src/data/haircuts.js:175-178 | labels that differ only in letter case get the same bundle |
| Haircuts.CaseVariantsAgree | src/data/haircuts.js:175-178 | "round", "ROUND" and "Round" all get the Round bundle |
| Haircuts.UnknownLabelsGetOval | src/data/haircuts.js:177 | "Unknown" and the empty label get the Oval bundle |
| Haircuts.Property | src/data/haircuts.js:177 | reading a key of an object literal gives an own value exactly for its own keys, and an inherited member exactly for a non-own key of `Object.prototype` |
| Haircuts.GetRecommendationsAsWritten | src/data/haircuts.js:175-178 | the lookup as JavaScript evaluates it is never `undefined`; it may be an inherited member, though |
| Haircuts.ProtoLabelEscapesTable | src/data/haircuts.js:176-177 | "__proto__" and "__PROTO__" normalise to "__proto__", and the lookup as written then returns `Object.prototype`, not a bundle |
| Haircuts.OnlyProtoEscapes | src/data/haircuts.js:176-177 | the written lookup yields an inherited member if and only if the label normalises to "__proto__"; for every other label it agrees with `GetRecommendations` |
| Haircuts.NormalizedNotInherited | src/data/haircuts.js:176-177 | among the keys of `Object.prototype`, only "__proto__" has the normalised form |
| ResultsPanel.ShapeInfoFor | src/components/ResultsPanel.jsx:8 | an own key gets its own icon and traits; any other label gets Oval's, unless it names a member of `Object.prototype` |
| ResultsPanel.CanonicalLabelsAgree | src/components/ResultsPanel.jsx:7-8 | for each of the five shape names, the panel shows that shape's icon and traits next to that shape's bundle |
| ResultsPanel.LowerCaseLabelShowsOvalInfo | src/components/ResultsPanel.jsx:7-8 | "round" lists the Round bundle but shows Oval's icon and traits |
| Backend.FirstComma | backend/app.py:106-108 | the position of the first comma (or the length): no comma stands before it, and a comma stands at it |
| Backend.StripDataUrl | backend/app.py:106-108 | a string without a comma is kept whole; otherwise the result contains no comma and is the text that runs from just after the first comma up to the second comma or the end |
| Backend.StripDataUrlRecoversPayload | backend/app.py:106-108 | stripping `data:<mime>;base64,<payload>` gives back `<payload>` |
| Backend.Insert | backend/app.py:130 | inserting an index into a ranking keeps it a duplicate-free ranking by non-increasing score, and adds exactly that index |
| Backend.RankFirst | backend/app.py:130 | the first `n` indices, each exactly once, by non-increasing score |
| Backend.RankIndices | backend/app.py:130 | `argsort(...)[::-1]` lists every index exactly once, by non-increasing score |
| Backend.RankHeadIsMax | backend/app.py:130-142 | the first index of a full ranking holds the highest score |
| Backend.TopIndices | backend/app.py:129-130 | `top_indices` has `min(len(predictions), 7)` entries, each a valid index |
| Backend.TopIndicesKeepBest | backend/app.py:129-130 | `top_indices` keeps the best indices: any index it leaves out scores no higher than every index it keeps |
| Backend.TopIndicesFacts | backend/app.py:129-130 | `top_indices` is duplicate-free and sorted by non-increasing score; it holds every index when there are at most seven; its head holds the highest score |
| Backend.Entries | backend/app.py:132-139 | `all_results` has at most one entry per visited index, and exactly one per index when every visited index is below seven |
| Backend.EntriesComplete | backend/app.py:133-139 | every visited index below seven contributes its entry, label and score, to `all_results` |
| Backend.EntriesFacts | backend/app.py:132-139 | `all_results` has at most one entry per visited index; every label comes from `FACE_SHAPES`; scores never increase; each entry comes from a visited index below seven; the first entry is the first index's when that index has a label |
| Backend.CollectResults | backend/app.py:132-139 | the loop builds exactly the entries of the indices below seven, in ranking order |
| Backend.PredictionResponse | backend/app.py:129-160 | the handler answers 200 exactly when the model produced at least one score; otherwise `top_indices[0]` raises and the answer is the 500 fallback with numpy's error text |
| Backend.SmallOutputListsEveryIndex | backend/app.py:129-139 | with one to seven scores, `all_results` has one entry per score and lists every index |
| Backend.EmptyPredictionsFail | backend/app.py:142-160 | empty model output makes `top_indices[0]` raise, and the response is a 500 with `isFallback` true |
| Backend.PredictionResponseFacts | backend/app.py:129-151 | non-empty model output gives a 200 that is not a fallback and has no error; its label comes from `FACE_SHAPES`; it has at most `min(len, 7)` results in non-increasing order; its confidence is the best-ranked prediction truncated to a whole percent, `int(top_confidence)`, so no prediction truncated to a whole percent exceeds it (the top `allResults` score keeps one decimal and may exceed the confidence by up to 0.9) |
| Backend.TopLabel | backend/app.py:142-144 | `faceShape` is the label of a highest-scoring index and equals `allResults[0].label` when that index is below seven, otherwise 'Oval'; `confidence` is that index's score truncated to a whole percent |
| Backend.Respond | backend/app.py:129-160 | the response the handler builds from the model's scores |
| Backend.Classify | backend/app.py:89-160 | no model gives a 500 fallback; an unusable body gives a 500 fallback; a missing `image` gives a 400; otherwise the stripped image's inference decides, with an exception giving a 500 fallback; the status is 200, 400 or 500, and `isFallback` is true exactly on a 500 |
| FaceClassifier.ApiUrl | src/hooks/useFaceClassifier.js:4 | a non-empty `VITE_API_URL` is used as is; otherwise `http://localhost:5000` |
| FaceClassifier.WithScheme | src/hooks/useFaceClassifier.js:22 | the URL always starts with "http"; a URL that already does is kept, and any other gets "https://" in front |
| FaceClassifier.WithSchemeIdempotent | src/hooks/useFaceClassifier.js:22 | adding the scheme twice is adding it once |
| FaceClassifier.Endpoint | src/hooks/useFaceClassifier.js:22-23 | the endpoint starts with "http" and ends with "/classify", following the base URL with its scheme |
| FaceClassifier.Contains | src/hooks/useFaceClassifier.js:69 | `includes`: the empty needle is always found, and a needle longer than the string never is |
| FaceClassifier.ContainsIffOccurs | src/hooks/useFaceClassifier.js:69 | `includes` is true if and only if the needle occurs at some position |
| FaceClassifier.ContainsWhenOccurs | src/hooks/useFaceClassifier.js:69 | an occurrence is found |
| FaceClassifier.OccursWhenContains | src/hooks/useFaceClassifier.js:69 | what is found is an occurrence |
| FaceClassifier.DecimalString | src/hooks/useFaceClassifier.js:43 | a status code prints as a non-empty string of decimal digits that spells the code back, with no leading zero (only 0 itself starts with '0') |
| FaceClassifier.ErrorFieldSet | src/hooks/useFaceClassifier.js:49 | `result.error` is truthy when present and non-empty; a missing or empty `error` is falsy |
| FaceClassifier.Thrown | src/hooks/useFaceClassifier.js:40-51 | nothing is thrown if and only if the response is OK and its `error` field is falsy; a non-OK status throws `API error: <status> <statusText> - <text>`; a truthy `error` is thrown as the message of an `Error`; a rejected promise is rethrown unchanged |
| FaceClassifier.LooksLikeNetworkFailure | src/hooks/useFaceClassifier.js:69 | a failure looks like a network failure if and only if it is a `TypeError` or its message has "Failed to fetch" or "NetworkError" at some position |
| FaceClassifier.ReportedError | src/hooks/useFaceClassifier.js:66-71 | the recorded error is never empty; a network-looking failure records the backend-unavailable message, and any other failure records its own message or the default one |
| FaceClassifier.TypeErrorsReportUnavailable | src/hooks/useFaceClassifier.js:69-70 | any `TypeError` is reported as an unavailable backend |
| FaceClassifier.HttpErrorReportsItself | src/hooks/useFaceClassifier.js:40-71 | an HTTP error is reported as `API error: <status> <statusText> - <text>` whenever that message contains neither "Failed to fetch" nor "NetworkError" |
| FaceClassifier.OtherScore | src/hooks/useFaceClassifier.js:99 | a non-chosen shape's score is a draw in [0, 19] |
| FaceClassifier.FallbackShapesDistinct | src/hooks/useFaceClassifier.js:90-99 | `shape === randomShape` holds exactly at the chosen position |
| FaceClassifier.Fallback | src/hooks/useFaceClassifier.js:89-103 | the fallback is marked `isFallback`, names the drawn shape, and has confidence 75 plus the drawn offset |
| FaceClassifier.ScoreAt | src/hooks/useFaceClassifier.js:99 | the chosen shape scores the confidence; every other shape scores in [0, 19] |
| FaceClassifier.FallbackEntries | src/hooks/useFaceClassifier.js:97-100 | `shapes.map` makes one entry per remaining shape, each labelled with its shape in list order |
| FaceClassifier.FallbackEntryAt | src/hooks/useFaceClassifier.js:97-100 | the entry at position `j` carries shape `j` and its score |
| FaceClassifier.FallbackEntriesAt | src/hooks/useFaceClassifier.js:97-100 | the whole `allResults` list, entry by entry |
| FaceClassifier.FallbackFacts | src/hooks/useFaceClassifier.js:89-103 | the fallback shape is one of the five; confidence lies in [75, 94]; there are exactly five entries in the order Oval, Round, Square, Heart, Diamond; the chosen shape scores the confidence; every other shape scores in [0, 19], so strictly less |
| FaceClassifier.FallbackRoundTrip | src/hooks/useFaceClassifier.js:89-103 | reading the draws back from a fallback result gives the draws that made it, so no draw is lost |
| FaceClassifier.Resolve | src/hooks/useFaceClassifier.js:40-75 | when something is thrown, `classify` resolves to a fallback with one of the five shapes and a confidence in [75, 94]; otherwise it resolves to the body's own `faceShape` and `confidence` |
| FaceClassifier.PassThrough | src/hooks/useFaceClassifier.js:53-58 | `faceShape` and `confidence` pass through unchanged; `allResults` defaults to []; `isFallback` is true exactly when the body says true |
| FaceClassifier.Classifier.constructor | src/hooks/useFaceClassifier.js:4-8 | not loading, no error, and the configured URL |
| FaceClassifier.Classifier.Classify | src/hooks/useFaceClassifier.js:10-79 | posts the image to the endpoint; loading is set and the error cleared while it waits; loading is off at the end; success passes the body through and clears the error; failure returns the fallback and records the reported error |
| FaceClassifier.FailuresFallBack | src/hooks/useFaceClassifier.js:40-75 | every failure (non-OK status, truthy `error`, rejected promise) resolves to a fallback with one of the five shapes, and every other outcome resolves to the passed-through body |
| Screens.HasImage | src/App.jsx:64 | `capturedImage` is truthy when present and non-empty; `null` and the empty string are falsy |
| Screens.SelectScreen | src/App.jsx:64-82 | capture if and only if there is no image; analyzer if and only if there is an image and no result; results if and only if there are both; so exactly one screen is chosen |
| Screens.App.constructor | src/App.jsx:11-13 | no image, no result, not analysing, so the capture screen |
| Screens.App.HandleImageCapture | src/App.jsx:15-18 | stores the image and clears the result; `isAnalyzing` is unchanged; the analyzer shows unless the image is empty |
| Screens.App.HandleAnalysisComplete | src/App.jsx:20-23 | stores the result and stops analysing; the image is unchanged; the results screen shows when there is an image |
| Screens.App.HandleStartAnalysis | src/App.jsx:25-27 | only `isAnalyzing` changes, to true, so the screen stays the same |
| Screens.App.HandleReset | src/App.jsx:29-65 | clears all three fields, so the next screen is capture |
| Screens.Session | src/App.jsx:15-82 | capture, start, complete and reset pass through the screens Capture, Analyzer, Analyzer, Results, Capture |
| Wire.IsOk | src/hooks/useFaceClassifier.js:40 | `response.ok` holds for every status from 200 to 299 and fails for every status outside that range |
| Pipeline.Delivered | src/hooks/useFaceClassifier.js:38-46 | the browser sees a readable body exactly for an OK status, and otherwise an HTTP error with that status |
| Pipeline.Analyze | backend/app.py:89-160 | from image to bundle: a backend 200 is shown as the backend ranked it and is not a fallback; every other backend answer, including the backend's own fallback, is replaced by the client's fallback; there is always a face shape, and its bundle has four haircuts; the lookup as JavaScript performs it returns that same bundle |
| Pipeline.ServerSuccess | backend/app.py:142-151 | a 200 from the backend names a face shape from `FACE_SHAPES`, has no error, and is not a fallback |
| Pipeline.FallbackLabel | src/hooks/useFaceClassifier.js:90 | every fallback shape is also one of the backend's labels |
| Pipeline.FallbackShapesHaveBundles | src/hooks/useFaceClassifier.js:90 | every fallback shape is a key of both tables, so it gets its own bundle and its own icon and traits |
| Pipeline.BackendLabelsResolve | backend/app.py:62 | five of the backend's labels get their own bundle; the other two are Oblong and Triangle, which get the Oval bundle and the Oval icon and traits |
| Pipeline.ExtraLabelIsNoKey | backend/app.py:62 | "Oblong" and "Triangle" are keys of neither table nor of `Object.prototype` |
| Pipeline.ExtraLabelShownAsOval | backend/app.py:62 | "Oblong" and "Triangle" are shown with Oval's bundle, icon and traits |
| Pipeline.OblongWins | backend/app.py:129-147 | any score vector of length above 5 whose strict maximum is at index 5 makes the backend answer 200 with "Oblong" |
| Pipeline.OblongIsShownAsOval | backend/app.py:142-143 | any score vector of length above 5 whose strict maximum is at index 5 makes the backend answer "Oblong", which is shown with the Oval bundle |
| Pipeline.AsWrittenAgrees | src/data/haircuts.js:175-178 | for every label the backend or the fallback can produce, the lookup as written returns the table's own bundle, the same one as the corrected lookup |

## Left out

- The network call, JSON encoding and parsing, and `console` logging are not
  modelled. `fetch` and the body reads become the `Outcome` parameter. The HTTP
  reason phrase and the error body's text are parameters in `Pipeline.Analyze`.
- Reading `import.meta.env` is not modelled. The variable's value is a parameter
  of `FaceClassifier.ApiUrl`.
- `Math.random` is not modelled. Its draws are the `Draws` parameter, and
  `ValidDraws` bounds them by what `Math.floor(Math.random() * n)` can produce.
  Uniformity is not stated.
- The neural network, base64 and image decoding, `preprocess_image` and softmax
  are not modelled. They are the `infer` parameter. Every exception they raise is
  its `Raised` outcome.
- Floating-point scores are not modelled. Scores are whole tenths of a percent,
  so the model does not capture `round(p * 100, 1)` on raw floats.
- Backend.RankIndices: ties are ranked by ascending index. The order numpy gives
  equal scores is not specified, so the contracts state only sortedness and that
  every index appears exactly once. Ranking works on the reported tenths, not on
  the unrounded probabilities.
- Haircuts.Normalize: case mapping is ASCII only. The Unicode case rules of
  `toUpperCase` and `toLowerCase` are not modelled.
- JSON values are not modelled in full. A request body is reduced to what the
  handler reads from it. An object keeps its string fields; its other fields are
  never read. A JSON array or string that does not contain "image" answers the
  key test `'image' not in data` as true, so it behaves as an object without
  the key (`JsonObject(map[])`), and the handler answers 400. The handler
  raises on these bodies, which are `Unusable` with the exception's text:
  - invalid JSON, `null`, a number or a boolean;
  - an object whose `image` is not a string;
  - an array or string that does contain "image".

  A response field of the wrong type is not represented.
- Screens.SelectScreen: `analysisResult` is a `ClassificationResult` or nothing.
  Falsy values other than `null` are not represented.
- The FaceAnalyzer progress bar, the rendering and animation in every component,
  ImageCapture's drag-and-drop, FileReader and webcam code, Flask routing, CORS,
  the `/health` endpoint, and model download and loading are not modelled. They
  are I/O, timers or markup with no stated logic.
- FaceClassifier.Classifier.Classify: the React state setters are modelled as
  field assignments in program order. The state while the request is in flight
  is reported through a ghost out-parameter. Re-renders and concurrent calls
  are not modelled.
- `ResultsPanel` rendering of a missing `faceShape` is not modelled.
  `faceShape.toUpperCase()` would throw on it. `Pipeline.Analyze` proves that a
  face shape is always present.

## Findings

| source | as written | input that shows it | evidently intended | confidence | as-written member | corrected member |
|---|---|---|---|---|---|---|
| src/data/haircuts.js:176-177 | `haircutRecommendations[normalizedShape]` reads inherited properties. "__proto__" survives normalisation unchanged, so the lookup returns `Object.prototype`, which is truthy and is not a bundle. | `getRecommendations("__proto__")` (or `"__PROTO__"`) | only the table's own keys are looked up, so every other label gets the Oval bundle; latent here, since no label this app produces reaches it (`Pipeline.AsWrittenAgrees`) | not executed | Haircuts.GetRecommendationsAsWritten, Haircuts.ProtoLabelEscapesTable | Haircuts.GetRecommendations, Haircuts.OnlyProtoEscapes |
