/**
 * The `useFaceClassifier` hook of src/hooks/useFaceClassifier.js.  The hook's
 * state (`isLoading`, `error`) is a class; `classify` is a method on it.  The
 * network round trip is a parameter, `outcome`: what `fetch` and the body
 * reads produced.  `Math.random` is a parameter too, `draws`: the integers the
 * fallback generator's `Math.floor(Math.random() * n)` expressions produced.
 */
module FaceClassifier {
  import opened Wrappers
  import opened Wire

  /** What `classify` resolves to. */
  datatype ClassificationResult = ClassificationResult(
    faceShape: Option<string>,
    confidence: Option<int>,
    allResults: seq<ScoreEntry>,
    isFallback: bool)

  /** How the request ended: a readable OK response, a non-OK response with its text,
      or a rejected promise (`fetch`, `response.text()` or `response.json()`) with the
      name and message of what it was rejected with. */
  datatype Outcome =
    | Ok(body: Body)
    | HttpError(status: nat, statusText: string, text: string)
    | Rejected(name: string, message: string)

  /** A thrown JavaScript error: `err.name` and `err.message`. */
  datatype JsError = JsError(name: string, message: string)

  /** The value of `API_URL` when `VITE_API_URL` is unset or empty. */
  const DefaultApiUrl: string := "http://localhost:5000"

  /** The message `classify` records when no other message is available. */
  const DefaultErrorMessage: string := "Failed to classify image"

  // ---------------------------------------------------------------------------
  // Endpoint
  // ---------------------------------------------------------------------------

  /** `API_URL = import.meta.env.VITE_API_URL || 'http://localhost:5000'`. */
  function ApiUrl(env: Option<string>): (r: string)
    ensures r != ""
    ensures env.Some? && env.value != "" ==> r == env.value
    ensures env.None? || env.value == "" ==> r == DefaultApiUrl
  {
    if env.Some? && env.value != "" then env.value else DefaultApiUrl
  }

  /** `API_URL.startsWith('http') ? API_URL : \`https://${API_URL}\``. */
  function WithScheme(apiUrl: string): (r: string)
    ensures "http" <= r
    ensures "http" <= apiUrl ==> r == apiUrl
    ensures !("http" <= apiUrl) ==> r == "https://" + apiUrl
  {
    if "http" <= apiUrl then apiUrl else "https://" + apiUrl
  }

  /** Adding the scheme is idempotent: a URL that already has one is left alone. */
  lemma WithSchemeIdempotent(apiUrl: string)
    ensures WithScheme(WithScheme(apiUrl)) == WithScheme(apiUrl)
  {
  }

  /** The URL `classify` posts to. */
  function Endpoint(apiUrl: string): (r: string)
    ensures "http" <= r
    ensures |r| >= |"/classify"| && r[|r| - |"/classify"|..] == "/classify"
    ensures r == WithScheme(apiUrl) + "/classify"
  {
    var r := WithScheme(apiUrl) + "/classify";
    assert r[..|WithScheme(apiUrl)|] == WithScheme(apiUrl);
    r
  }

  // ---------------------------------------------------------------------------
  // Substring search (`String.prototype.includes`)
  // ---------------------------------------------------------------------------

  /** `s.includes(sub)`. */
  function Contains(s: string, sub: string): (r: bool)
    ensures sub == [] ==> r
    ensures r ==> |sub| <= |s|
    decreases |s|
  {
    if sub <= s then true
    else if s == [] then false
    else Contains(s[1..], sub)
  }

  /** `sub` occurs in `s` at position `i`. */
  ghost predicate OccursAt(s: string, sub: string, i: int) {
    0 <= i && i + |sub| <= |s| && s[i..i + |sub|] == sub
  }

  /** An occurrence of `sub` is found by `Contains`. */
  lemma {:induction false} ContainsWhenOccurs(s: string, sub: string, i: int)
    requires OccursAt(s, sub, i)
    ensures Contains(s, sub)
    decreases i
  {
    if i == 0 {
      assert s[..|sub|] == sub;
    } else if !(sub <= s) {
      assert s[1..][i - 1..i - 1 + |sub|] == s[i..i + |sub|];
      ContainsWhenOccurs(s[1..], sub, i - 1);
    }
  }

  /** What `Contains` finds is an occurrence of `sub`. */
  lemma {:induction false} OccursWhenContains(s: string, sub: string)
    requires Contains(s, sub)
    ensures exists i :: OccursAt(s, sub, i)
    decreases |s|
  {
    if sub <= s {
      assert s[0..|sub|] == sub;
      assert OccursAt(s, sub, 0);
    } else {
      OccursWhenContains(s[1..], sub);
      var i :| OccursAt(s[1..], sub, i);
      assert s[1..][i..i + |sub|] == s[i + 1..i + 1 + |sub|];
      assert OccursAt(s, sub, i + 1);
    }
  }

  /** `Contains` finds `sub` exactly when it occurs somewhere in `s`. */
  lemma ContainsIffOccurs(s: string, sub: string)
    ensures Contains(s, sub) <==> exists i :: OccursAt(s, sub, i)
  {
    if Contains(s, sub) {
      OccursWhenContains(s, sub);
    }
    forall i | OccursAt(s, sub, i) ensures Contains(s, sub) {
      ContainsWhenOccurs(s, sub, i);
    }
  }

  // ---------------------------------------------------------------------------
  // Error handling
  // ---------------------------------------------------------------------------

  /** Decimal digits of a status code, as a template literal prints it: no leading zero. */
  function DecimalString(n: nat): (r: string)
    ensures r != []
    ensures forall k :: 0 <= k < |r| ==> '0' <= r[k] <= '9'
    ensures DigitsValue(r) == n
    ensures r[0] == '0' <==> n == 0
    ensures |r| > 1 ==> r[0] != '0'
  {
    var d := ['0' + (n % 10) as char];
    if n < 10 then d
    else
      var r := DecimalString(n / 10) + d;
      assert r[..|r| - 1] == DecimalString(n / 10);
      r
  }

  /** The number a string of decimal digits spells, most significant digit first. */
  function DigitsValue(s: string): nat
    requires forall k :: 0 <= k < |s| ==> '0' <= s[k] <= '9'
  {
    if s == [] then 0
    else DigitsValue(s[..|s| - 1]) * 10 + (s[|s| - 1] as int - '0' as int)
  }

  /** `result.error` is truthy: present and not the empty string. */
  function ErrorFieldSet(body: Body): (r: bool)
    ensures body.error.None? ==> !r
    ensures body.error == Some("") ==> !r
    ensures body.error.Some? && body.error.value != "" ==> r
  {
    body.error.Some? && body.error.value != ""
  }

  /** What the `try` block throws for `outcome`, if anything. */
  function Thrown(outcome: Outcome): (r: Option<JsError>)
    ensures r.None? <==> outcome.Ok? && !ErrorFieldSet(outcome.body)
    ensures outcome.Rejected? ==> r == Some(JsError(outcome.name, outcome.message))
    ensures outcome.Ok? && ErrorFieldSet(outcome.body) ==> r == Some(JsError("Error", outcome.body.error.value))
    ensures outcome.HttpError? ==> r == Some(JsError("Error",
      "API error: " + DecimalString(outcome.status) + " " + outcome.statusText + " - " + outcome.text))
  {
    match outcome
    case Ok(body) =>
      if ErrorFieldSet(body) then Some(JsError("Error", body.error.value)) else None
    case HttpError(status, statusText, text) =>
      Some(JsError("Error", "API error: " + DecimalString(status) + " " + statusText + " - " + text))
    case Rejected(name, message) =>
      Some(JsError(name, message))
  }

  /** The failure looks like an unreachable backend. */
  function LooksLikeNetworkFailure(e: JsError): (r: bool)
    ensures r <==> (|| e.name == "TypeError"
                    || (exists i :: OccursAt(e.message, "Failed to fetch", i))
                    || (exists i :: OccursAt(e.message, "NetworkError", i)))
  {
    ContainsIffOccurs(e.message, "Failed to fetch");
    ContainsIffOccurs(e.message, "NetworkError");
    Contains(e.message, "Failed to fetch") || Contains(e.message, "NetworkError") || e.name == "TypeError"
  }

  /** The message recorded for an unreachable backend. */
  function UnavailableMessage(apiUrl: string): string {
    "Backend API not available. Check if " + apiUrl + " is accessible."
  }

  /** The message `error` holds after the `catch` block handled `e`. */
  function ReportedError(apiUrl: string, e: JsError): (r: string)
    ensures r != ""
    ensures LooksLikeNetworkFailure(e) ==> r == UnavailableMessage(apiUrl)
    ensures !LooksLikeNetworkFailure(e) ==> r == if e.message != "" then e.message else DefaultErrorMessage
  {
    var first := if e.message != "" then e.message else DefaultErrorMessage;
    if LooksLikeNetworkFailure(e) then UnavailableMessage(apiUrl) else first
  }

  /** A transport failure as browsers report it (`TypeError: Failed to fetch`) is
      reported as an unavailable backend, whatever its wording. */
  lemma TypeErrorsReportUnavailable(apiUrl: string, message: string)
    ensures ReportedError(apiUrl, JsError("TypeError", message)) == UnavailableMessage(apiUrl)
  {
  }

  /** An HTTP error is reported with its own message, `API error: <status> <statusText> - <text>`,
      unless that message mentions a network failure. */
  lemma HttpErrorReportsItself(apiUrl: string, status: nat, statusText: string, text: string)
    ensures var m := "API error: " + DecimalString(status) + " " + statusText + " - " + text;
      !Contains(m, "Failed to fetch") && !Contains(m, "NetworkError") ==>
        ReportedError(apiUrl, Thrown(HttpError(status, statusText, text)).value) == m
  {
  }

  // ---------------------------------------------------------------------------
  // Fallback result
  // ---------------------------------------------------------------------------

  /** The labels the fallback generator draws from, in the order it lists them. */
  const FallbackShapes: seq<string> := ["Oval", "Round", "Square", "Heart", "Diamond"]

  /** The integers `Math.floor(Math.random() * n)` produced, in the order they were drawn:
      the shape index, the confidence offset, then one score for every shape other than the
      chosen one, in list order (the ternary does not draw for the chosen shape). */
  datatype Draws = Draws(shapeIndex: nat, confidenceOffset: nat, otherScores: seq<nat>)

  /** Draws that `Math.random` in [0, 1) can produce. */
  predicate ValidDraws(d: Draws) {
    d.shapeIndex < |FallbackShapes| && d.confidenceOffset < 20 && |d.otherScores| == |FallbackShapes| - 1
    && forall k :: 0 <= k < |d.otherScores| ==> d.otherScores[k] < 20
  }

  /** The score drawn for the shape at position `k` when `chosen` was chosen. */
  function OtherScore(d: Draws, k: nat): (r: nat)
    requires ValidDraws(d) && k < |FallbackShapes| && k != d.shapeIndex
    ensures r < 20
  {
    if k < d.shapeIndex then d.otherScores[k] else d.otherScores[k - 1]
  }

  /** The shapes are pairwise distinct, so `shape === randomShape` holds at the chosen position only. */
  lemma FallbackShapesDistinct(i: nat, j: nat)
    requires i < |FallbackShapes| && j < |FallbackShapes|
    ensures FallbackShapes[i] == FallbackShapes[j] <==> i == j
  {
  }

  /** The `allResults` list `shapes.map(...)` builds, from position `k` on. */
  function FallbackEntries(d: Draws, k: nat): (r: seq<ScoreEntry>)
    requires ValidDraws(d) && k <= |FallbackShapes|
    ensures |r| == |FallbackShapes| - k
    ensures forall j :: 0 <= j < |r| ==> r[j].shape == FallbackShapes[k + j]
    decreases |FallbackShapes| - k
  {
    if k == |FallbackShapes| then []
    else
      var shape := FallbackShapes[k];
      var score := if shape == FallbackShapes[d.shapeIndex] then 75 + d.confidenceOffset
                   else OtherScore(d, k);
      [ScoreEntry(shape, score as real)] + FallbackEntries(d, k + 1)
  }

  /** `getFallbackResult()` for the draws `d`. */
  function Fallback(d: Draws): (r: ClassificationResult)
    requires ValidDraws(d)
    ensures r.isFallback
    ensures r.faceShape == Some(FallbackShapes[d.shapeIndex])
    ensures r.confidence == Some(75 + d.confidenceOffset)
  {
    ClassificationResult(Some(FallbackShapes[d.shapeIndex]), Some(75 + d.confidenceOffset),
                         FallbackEntries(d, 0), true)
  }

  /** The score the fallback gives the shape at position `j`. */
  function ScoreAt(d: Draws, j: nat): (score: real)
    requires ValidDraws(d) && j < |FallbackShapes|
    ensures j == d.shapeIndex ==> score == (75 + d.confidenceOffset) as real
    ensures j != d.shapeIndex ==> 0.0 <= score <= 19.0
  {
    if j == d.shapeIndex then (75 + d.confidenceOffset) as real else OtherScore(d, j) as real
  }

  /** The entry for position `j` lists the shape at `j` with `ScoreAt(d, j)`. */
  lemma {:induction false} FallbackEntryAt(d: Draws, k: nat, j: nat)
    requires ValidDraws(d) && k <= j < |FallbackShapes|
    ensures |FallbackEntries(d, k)| == |FallbackShapes| - k
    ensures FallbackEntries(d, k)[j - k] == ScoreEntry(FallbackShapes[j], ScoreAt(d, j))
    decreases j - k
  {
    if j == k {
      FallbackShapesDistinct(k, d.shapeIndex);
    } else {
      FallbackEntryAt(d, k + 1, j);
    }
  }

  /** Every entry of the fallback's `allResults`. */
  lemma FallbackEntriesAt(d: Draws)
    requires ValidDraws(d)
    ensures |FallbackEntries(d, 0)| == |FallbackShapes|
    ensures forall j :: 0 <= j < |FallbackShapes| ==>
      FallbackEntries(d, 0)[j] == ScoreEntry(FallbackShapes[j], ScoreAt(d, j))
  {
    forall j | 0 <= j < |FallbackShapes|
      ensures FallbackEntries(d, 0)[j] == ScoreEntry(FallbackShapes[j], ScoreAt(d, j))
    {
      FallbackEntryAt(d, 0, j);
    }
  }

  /** What the fallback promises: one of the five shapes, a confidence in [75, 94], every shape
      listed once in a fixed order, the chosen one scored with the confidence, and every other
      shape scored in [0, 19] and so strictly below it. */
  lemma FallbackFacts(d: Draws)
    requires ValidDraws(d)
    ensures var r := Fallback(d);
      && r.faceShape.value in FallbackShapes
      && 75 <= r.confidence.value <= 94
      && |r.allResults| == |FallbackShapes|
      && (forall j :: 0 <= j < |FallbackShapes| ==> r.allResults[j].shape == FallbackShapes[j])
      && r.allResults[d.shapeIndex].score == r.confidence.value as real
      && (forall j :: 0 <= j < |FallbackShapes| && j != d.shapeIndex ==>
            0.0 <= r.allResults[j].score <= 19.0 && r.allResults[j].score < r.confidence.value as real)
  {
    FallbackEntriesAt(d);
  }

  /** The draws read back from a fallback result: the position of its shape, its confidence
      offset and the scores of the other shapes in list order. */
  function DrawsOf(r: ClassificationResult): (d: Draws)
    requires r.faceShape.Some? && r.faceShape.value in FallbackShapes
    requires r.confidence.Some? && r.confidence.value >= 75
    requires |r.allResults| == |FallbackShapes|
  {
    var i := IndexOf(FallbackShapes, r.faceShape.value);
    var others := r.allResults[..i] + r.allResults[i + 1..];
    Draws(i, r.confidence.value - 75, seq(|others|, k requires 0 <= k < |others| => WholeScore(others[k].score)))
  }

  /** A score read back as the whole number it was drawn as (negative scores read as 0). */
  function WholeScore(score: real): (n: nat)
    ensures score >= 0.0 ==> n == score.Floor
  {
    if score.Floor < 0 then 0 else score.Floor
  }

  /** Position of `x` in `xs`. */
  function IndexOf(xs: seq<string>, x: string): (i: nat)
    requires x in xs
    ensures i < |xs| && xs[i] == x
    ensures forall j :: 0 <= j < i ==> xs[j] != x
  {
    if xs[0] == x then 0 else 1 + IndexOf(xs[1..], x)
  }

  /** The fallback result records every draw it used: reading them back gives `d` again. */
  lemma FallbackRoundTrip(d: Draws)
    requires ValidDraws(d)
    ensures var r := Fallback(d);
      DrawsOf(r) == d
  {
    var r := Fallback(d);
    FallbackEntriesAt(d);
    var i := IndexOf(FallbackShapes, r.faceShape.value);
    FallbackShapesDistinct(i, d.shapeIndex);
    var others := r.allResults[..i] + r.allResults[i + 1..];
    forall k | 0 <= k < |others| ensures WholeScore(others[k].score) == d.otherScores[k] {
      if k < i {
        assert others[k] == r.allResults[k];
      } else {
        assert others[k] == r.allResults[k + 1];
      }
    }
  }

  // ---------------------------------------------------------------------------
  // Successful response
  // ---------------------------------------------------------------------------

  /** The object `classify` returns for a successful, error-free response body. */
  function PassThrough(body: Body): (r: ClassificationResult)
    ensures r.faceShape == body.faceShape && r.confidence == body.confidence
    ensures r.allResults == body.allResults.GetOr([])
    ensures r.isFallback <==> body.isFallback == Some(true)
  {
    ClassificationResult(body.faceShape, body.confidence, body.allResults.GetOr([]),
                         body.isFallback.GetOr(false))
  }

  /** What `classify` resolves to for `outcome`. */
  function Resolve(outcome: Outcome, d: Draws): (r: ClassificationResult)
    requires ValidDraws(d)
    ensures Thrown(outcome).Some? ==>
      r.isFallback && r.faceShape.Some? && r.faceShape.value in FallbackShapes
      && r.confidence.Some? && 75 <= r.confidence.value <= 94
    ensures Thrown(outcome).None? ==>
      r.faceShape == outcome.body.faceShape && r.confidence == outcome.body.confidence
  {
    if Thrown(outcome).None? then PassThrough(outcome.body) else Fallback(d)
  }

  // ---------------------------------------------------------------------------
  // The hook
  // ---------------------------------------------------------------------------

  /** The hook's state: whether a request is in flight and the last error message. */
  class Classifier {
    /** `API_URL` as configured, before a scheme is added. */
    const apiUrl: string
    var isLoading: bool
    var error: Option<string>

    /** `useState(false)` and `useState(null)` with the configured endpoint. */
    constructor(env: Option<string>)
      ensures apiUrl == ApiUrl(env)
      ensures !isLoading && error == None
    {
      apiUrl := ApiUrl(env);
      isLoading := false;
      error := None;
    }

    /** `classify(imageData)`.  `outcome` is how the POST to `Endpoint(apiUrl)` with
        `{"image": imageData}` ended, `draws` what `Math.random` would produce for the
        fallback.  `request` is the URL and the image sent; `pending` the state (`isLoading`,
        `error`) while the request is in flight. */
    method Classify(imageData: string, outcome: Outcome, draws: Draws)
      returns (r: ClassificationResult, request: (string, string), ghost pending: (bool, Option<string>))
      requires ValidDraws(draws)
      modifies this
      ensures request == (Endpoint(apiUrl), imageData)
      ensures pending == (true, None)
      ensures !isLoading
      ensures r == Resolve(outcome, draws)
      ensures Thrown(outcome).None? ==> r == PassThrough(outcome.body) && error == None
      ensures Thrown(outcome).Some? ==>
        r == Fallback(draws) && error == Some(ReportedError(apiUrl, Thrown(outcome).value))
    {
      isLoading := true;
      error := None;
      pending := (isLoading, error);
      var url := WithScheme(apiUrl);
      request := (url + "/classify", imageData);
      var thrown := Thrown(outcome);
      if thrown.None? {
        r := PassThrough(outcome.body);
      } else {
        var e := thrown.value;
        error := Some(if e.message != "" then e.message else DefaultErrorMessage);
        if Contains(e.message, "Failed to fetch") || Contains(e.message, "NetworkError") || e.name == "TypeError" {
          error := Some(UnavailableMessage(apiUrl));
        }
        r := Fallback(draws);
      }
      isLoading := false;
    }
  }

  /** `classify` never rejects: every failure (a non-OK status, a body with an `error`, a
      rejected promise) resolves to a fallback result, whose face shape is one of the five;
      every other outcome resolves to the body's own fields. */
  lemma FailuresFallBack(outcome: Outcome, d: Draws)
    requires ValidDraws(d)
    ensures !outcome.Ok? || ErrorFieldSet(outcome.body) ==>
      Resolve(outcome, d).isFallback && Resolve(outcome, d).faceShape.value in FallbackShapes
    ensures outcome.Ok? && !ErrorFieldSet(outcome.body) ==> Resolve(outcome, d) == PassThrough(outcome.body)
  {
  }
}
