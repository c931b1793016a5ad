/**
 * The two sides of `POST /api/predict/` put together: the body the page sends,
 * what the view answers, and what the page makes of the answer.
 */
module EndToEnd {
  import opened Wrappers
  import Page
  import Views

  /** `fetch(..., { method: 'POST', body: JSON.stringify({ comment, model_name: model }) })`
      as the view receives it after `json.loads`. */
  function Encode(req: Page.PredictRequest): (r: Views.HttpRequest)
    ensures r.verb == "POST" && r.body.Decoded? && r.body.value.JObject?
    ensures Views.Get(r.body.value.fields, "comment") == Views.JString(req.comment)
    ensures Views.Get(r.body.value.fields, "model_name") == Views.JString(req.modelName)
  {
    Views.HttpRequest("POST", Views.Decoded(Views.JObject(map[
      "comment" := Views.JString(req.comment),
      "model_name" := Views.JString(req.modelName)])))
  }

  /** What the handler sees of a response: `response.ok` is a 2xx status; an
      ok body is read for `sentiment` (absent reads as `undefined`, which the
      page treats like an empty string), any other body for `error`. */
  function Receive(resp: Views.JsonResponse): (o: Page.Outcome)
    ensures o.Ok? <==> 200 <= resp.status < 300
    ensures o.Ok? && "sentiment" in resp.payload ==> o.sentiment == resp.payload["sentiment"]
    ensures o.HttpError? && "error" in resp.payload ==> o.errorField == Some(resp.payload["error"])
  {
    if 200 <= resp.status < 300 then
      Page.Ok(if "sentiment" in resp.payload then resp.payload["sentiment"] else "")
    else
      Page.HttpError(if "error" in resp.payload then Some(resp.payload["error"]) else None)
  }

  /** A request sent by the page always passes the view's method and
      missing-field checks, and never fails on a non-string `model_name`; the
      page then shows the classifier's label, or the view's own error message
      verbatim. */
  lemma PageRequestRoundTrip(s: Page.PageState, baseDir: string, files: set<string>, prediction: Views.Prediction)
    requires !Page.IsBlank(s.comment) && s.model != ""
    ensures Page.Begin(s).request.Some?
    ensures var resp := Views.Predict(Encode(Page.Begin(s).request.value), baseDir, files, prediction);
      var t := Page.Finish(Page.Begin(s).state, Receive(resp));
      resp.status != 405 && resp.status != 400 &&
      (resp.status == 500 ==> prediction.Raised?) &&
      (resp.status == 200 ==> t.result == prediction.sentiment && t.error == "") &&
      (resp.status != 200 ==> t.error == resp.payload["error"] && t.result == "") &&
      !t.loading
  {
    assert s.comment != "";
  }

  /** For the page's four models, a comment with a character other than
      white space, both artifacts present and a classifier that answers give
      a 200, and the page shows the label. */
  lemma KnownModelsSucceed(s: Page.PageState, k: nat, baseDir: string, files: set<string>, answer: string)
    requires k < |s.comment| && !Page.IsJsSpace(s.comment[k]) && s.model in Page.Models
    ensures Page.Begin(s).request.Some?
    ensures var resp := Views.Predict(Encode(Page.Begin(s).request.value), baseDir, files, Views.Label(answer));
      Views.ModelPath(baseDir, s.model) in files && Views.VectorizerPath(baseDir, s.model) in files ==>
        resp == Views.JsonResponse(200, map["sentiment" := answer]) &&
        Page.Finish(Page.Begin(s).state, Receive(resp)).result == answer
  {
    assert s.comment != "" && s.model != "";
    var req := Page.Begin(s).request.value;
    assert req == Page.PredictRequest(s.comment, s.model);
    Views.ArtifactsChecked(s.model, Encode(req).body.value.fields, baseDir, files, Views.Label(answer));
  }
}
