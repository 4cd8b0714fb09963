/**
 * The JSON exchanged over `POST /classify` between the Flask backend
 * (backend/app.py) and the browser client (src/hooks/useFaceClassifier.js).
 * Every body field is optional, as in JSON.
 */
module Wire {
  import opened Wrappers

  /** One entry of `allResults`: `{label, score}`, the score in percent. The field `shape`
      carries the JSON key `label`, which is a reserved word in Dafny. */
  datatype ScoreEntry = ScoreEntry(shape: string, score: real)

  /** A response body: `{faceShape, confidence, allResults, isFallback, error}`. */
  datatype Body = Body(
    faceShape: Option<string>,
    confidence: Option<int>,
    allResults: Option<seq<ScoreEntry>>,
    isFallback: Option<bool>,
    error: Option<string>)

  /** An HTTP response: status code and JSON body. */
  datatype Response = Response(status: nat, body: Body)

  /** A body that carries only an error message and, optionally, `isFallback`. */
  function ErrorBody(message: string, isFallback: Option<bool>): Body {
    Body(None, None, None, isFallback, Some(message))
  }

  /** `response.ok` of the Fetch standard: a status in 200..299. */
  function IsOk(status: nat): (r: bool)
    ensures 200 <= status <= 299 ==> r
    ensures status < 200 || 300 <= status ==> !r
  {
    200 <= status <= 299
  }
}
