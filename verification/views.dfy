/**
 * The prediction endpoint (apps/api/prediction/views.py): the guard chain of
 * `predict` from a request to a status and a JSON payload, the file-name
 * prefix and the two artifact paths. Loading the pickled artifacts and running
 * the classifier are opaque and arrive as a `Prediction`; which files exist
 * arrives as a set of paths.
 */
module Views {

  // ---------------------------------------------------------------------------
  // Parsed JSON, as Python sees it after `json.loads`
  // ---------------------------------------------------------------------------

  /** A JSON value as `json.loads` returns it: `None`, `bool`, `int`, `float`
      (only whether it is zero matters here), `str`, `list`, `dict`. */
  datatype Json =
    | JNull
    | JBool(b: bool)
    | JInt(i: int)
    | JFloat(isZero: bool)
    | JString(s: string)
    | JArray(items: seq<Json>)
    | JObject(fields: map<string, Json>)

  /** Python truthiness, as used by `not comment or not model_name`. */
  predicate Truthy(v: Json)
    ensures v.JString? ==> (Truthy(v) <==> v.s != "")
    ensures v == JNull || v == JBool(false) || v == JInt(0) ==> !Truthy(v)
  {
    match v
    case JNull => false
    case JBool(b) => b
    case JInt(i) => i != 0
    case JFloat(isZero) => !isZero
    case JString(s) => s != ""
    case JArray(items) => items != []
    case JObject(fields) => fields != map[]
  }

  /** The name Python gives the type of a parsed value. */
  function TypeName(v: Json): string {
    match v
    case JNull => "NoneType"
    case JBool(_) => "bool"
    case JInt(_) => "int"
    case JFloat(_) => "float"
    case JString(_) => "str"
    case JArray(_) => "list"
    case JObject(_) => "dict"
  }

  /** `str(e)` for the `AttributeError` raised by `v.attr` when `v` has no
      such attribute. */
  function NoAttribute(v: Json, attr: string): (m: string)
    ensures "'" <= m && EndsWith(m, "' object has no attribute '" + attr + "'")
  {
    "'" + TypeName(v) + "' object has no attribute '" + attr + "'"
  }

  /** `dict.get(key)`: the value, or `None` when the key is absent. */
  function Get(fields: map<string, Json>, key: string): (v: Json)
    ensures key in fields ==> v == fields[key]
    ensures key !in fields ==> !Truthy(v)
  {
    if key in fields then fields[key] else JNull
  }

  // ---------------------------------------------------------------------------
  // The file-name prefix and the artifact paths
  // ---------------------------------------------------------------------------

  /** `s.replace(pat, rep)` for one-character `pat` and `rep`: every occurrence
      of `pat` becomes `rep` and every other character stays where it is. */
  function ReplaceAll(s: string, pat: char, rep: char): (r: string)
    ensures |r| == |s|
    ensures forall i :: 0 <= i < |s| ==> r[i] == if s[i] == pat then rep else s[i]
  {
    if s == [] then [] else [if s[0] == pat then rep else s[0]] + ReplaceAll(s[1..], pat, rep)
  }

  /** `model_name.replace('-', '_')`. */
  function FilenamePrefix(name: string): (p: string)
    ensures |p| == |name| && '-' !in p
  {
    ReplaceAll(name, '-', '_')
  }

  /** `s.endswith(suffix)`. */
  predicate EndsWith(s: string, suffix: string) {
    |suffix| <= |s| && s[|s| - |suffix|..] == suffix
  }

  /** `posixpath.join(a, b)`: a component that starts with `/` discards what
      came before; otherwise a separator is added unless the path so far is
      empty or already ends with one. */
  function PathJoin(a: string, b: string): (r: string)
    ensures EndsWith(r, b)
    ensures |b| > 0 && b[0] == '/' ==> r == b
  {
    if |b| > 0 && b[0] == '/' then b
    else if a == [] || a[|a| - 1] == '/' then a + b
    else a + "/" + b
  }

  /** `os.path.join(BASE_DIR, 'model', model_name, f'{filename_prefix}_model.pkl')`. */
  function ModelPath(baseDir: string, name: string): (path: string)
    ensures EndsWith(path, FilenamePrefix(name) + "_model.pkl")
  {
    PathJoin(PathJoin(PathJoin(baseDir, "model"), name), FilenamePrefix(name) + "_model.pkl")
  }

  /** The vectorizer's file name, the same for every model. */
  const VectorizerFile := "tfidf_vectorizer.pkl"

  /** `os.path.join(BASE_DIR, 'model', model_name, 'tfidf_vectorizer.pkl')`. */
  function VectorizerPath(baseDir: string, name: string): (path: string)
    ensures EndsWith(path, VectorizerFile)
  {
    PathJoin(PathJoin(PathJoin(baseDir, "model"), name), VectorizerFile)
  }

  // ---------------------------------------------------------------------------
  // The view
  // ---------------------------------------------------------------------------

  /** The request body after `json.loads`, or the message of the exception it
      raised. */
  datatype Body = Decoded(value: Json) | Undecodable(reason: string)

  datatype HttpRequest = HttpRequest(verb: string, body: Body)

  /** What loading both artifacts, transforming the comment and predicting
      give: the first predicted label, or the message of an exception. */
  datatype Prediction = Label(sentiment: string) | Raised(reason: string)

  /** A `JsonResponse`: its status and its (flat, string-valued) payload. */
  datatype JsonResponse = JsonResponse(status: int, payload: map<string, string>)

  const OnlyPostMessage := "Only POST method is allowed"
  const MissingFieldMessage := "Missing 'comment' or 'model_name'"
  const NotFoundPrefix := "Model files not found for "
  const UnexpectedPrefix := "An unexpected error occurred: "

  function ErrorResponse(status: int, message: string): JsonResponse {
    JsonResponse(status, map["error" := message])
  }

  /** The `except Exception` handler. */
  function Unexpected(reason: string): (r: JsonResponse)
    ensures r.status == 500 && r.payload.Keys == {"error"}
    ensures UnexpectedPrefix <= r.payload["error"]
  {
    ErrorResponse(500, UnexpectedPrefix + reason)
  }

  /** `predict(request)`, with `BASE_DIR`, the files that exist and the
      classifier's answer as parameters. The response is one of the five
      statuses, and its payload has one key: `sentiment` on success, `error`
      otherwise. */
  function Predict(req: HttpRequest, baseDir: string, files: set<string>, prediction: Prediction): (r: JsonResponse)
    ensures r.status in {200, 400, 404, 405, 500}
    ensures r.payload.Keys == if r.status == 200 then {"sentiment"} else {"error"}
    ensures r.status != 200 ==> r.payload["error"] != ""
  {
    if req.verb != "POST" then
      ErrorResponse(405, OnlyPostMessage)
    else
      match req.body
      case Undecodable(reason) => Unexpected(reason)
      case Decoded(data) =>
        if !data.JObject? then
          Unexpected(NoAttribute(data, "get"))
        else
          var comment := Get(data.fields, "comment");
          var modelName := Get(data.fields, "model_name");
          if !Truthy(comment) || !Truthy(modelName) then
            ErrorResponse(400, MissingFieldMessage)
          else if !modelName.JString? then
            Unexpected(NoAttribute(modelName, "replace"))
          else
            Classify(modelName.s, baseDir, files, prediction)
  }

  /** The rest of the view once `model_name` is a string: the artifact check,
      then the classifier's label or the exception it raised. */
  function Classify(name: string, baseDir: string, files: set<string>, prediction: Prediction): (r: JsonResponse)
    ensures r.status in {200, 404, 500}
    ensures r.payload.Keys == if r.status == 200 then {"sentiment"} else {"error"}
    ensures r.status != 200 ==> r.payload["error"] != ""
    ensures r.status == 200 <==>
      ModelPath(baseDir, name) in files && VectorizerPath(baseDir, name) in files && prediction.Label?
  {
    if ModelPath(baseDir, name) !in files || VectorizerPath(baseDir, name) !in files then
      ErrorResponse(404, NotFoundPrefix + name)
    else
      match prediction
      case Label(sentiment) => JsonResponse(200, map["sentiment" := sentiment])
      case Raised(reason) => Unexpected(reason)
  }

  // ---------------------------------------------------------------------------
  // Properties of the prefix and the paths
  // ---------------------------------------------------------------------------

  /** The prefix has the name's length, no hyphen left, and changes a
      hyphen-free name not at all; applying it twice is applying it once. */
  lemma PrefixProperties(name: string)
    ensures |FilenamePrefix(name)| == |name|
    ensures '-' !in FilenamePrefix(name)
    ensures FilenamePrefix(FilenamePrefix(name)) == FilenamePrefix(name)
    ensures '-' !in name ==> FilenamePrefix(name) == name
  {
    var p := FilenamePrefix(name);
    assert forall i :: 0 <= i < |p| ==> p[i] != '-';
    assert '-' !in p;
    assert FilenamePrefix(p) == p;
    if '-' !in name {
      assert forall i :: 0 <= i < |name| ==> p[i] == name[i];
    }
  }

  /** Joining a relative component onto a non-empty path that does not end
      in `/` inserts exactly one separator. */
  lemma JoinRelative(a: string, b: string)
    requires a != [] && a[|a| - 1] != '/'
    requires b != [] && b[0] != '/'
    ensures PathJoin(a, b) == a + "/" + b
    ensures b[|b| - 1] != '/' ==> PathJoin(a, b)[|PathJoin(a, b)| - 1] != '/'
  {
  }

  /** For a relative model name that does not end in `/`, under a non-empty
      `BASE_DIR` without a trailing `/`, the model path is a plain
      `/`-separated concatenation: the directory uses the name as given, the
      file the prefix. */
  lemma ModelLayout(baseDir: string, name: string)
    requires baseDir != [] && baseDir[|baseDir| - 1] != '/'
    requires name != [] && name[0] != '/' && name[|name| - 1] != '/'
    ensures ModelPath(baseDir, name) == baseDir + "/model/" + name + "/" + FilenamePrefix(name) + "_model.pkl"
  {
    var d := ModelDir(baseDir, name);
    var p := FilenamePrefix(name);
    assert p[0] != '/';
    var file := p + "_model.pkl";
    assert file[0] == p[0];
    JoinRelative(d, file);
  }

  /** Under the same conditions, the vectorizer path is the plain
      concatenation with the name as given. */
  lemma VectorizerLayout(baseDir: string, name: string)
    requires baseDir != [] && baseDir[|baseDir| - 1] != '/'
    requires name != [] && name[0] != '/' && name[|name| - 1] != '/'
    ensures VectorizerPath(baseDir, name) == baseDir + "/model/" + name + "/" + VectorizerFile
  {
    var d := ModelDir(baseDir, name);
    JoinRelative(d, VectorizerFile);
  }

  /** The directory both artifacts live in: `BASE_DIR/model/<name>`, which
      does not end in `/`. */
  lemma ModelDir(baseDir: string, name: string) returns (d: string)
    requires baseDir != [] && baseDir[|baseDir| - 1] != '/'
    requires name != [] && name[0] != '/' && name[|name| - 1] != '/'
    ensures d == PathJoin(PathJoin(baseDir, "model"), name) == baseDir + "/model/" + name
    ensures d != [] && d[|d| - 1] != '/'
  {
    JoinRelative(baseDir, "model");
    var dir := baseDir + "/" + "model";
    JoinRelative(dir, name);
    d := dir + "/" + name;
    assert d == baseDir + "/model/" + name;
  }

  /** Both paths under those conditions. */
  lemma PathLayout(baseDir: string, name: string)
    requires baseDir != [] && baseDir[|baseDir| - 1] != '/'
    requires name != [] && name[0] != '/' && name[|name| - 1] != '/'
    ensures ModelPath(baseDir, name) == baseDir + "/model/" + name + "/" + FilenamePrefix(name) + "_model.pkl"
    ensures VectorizerPath(baseDir, name) == baseDir + "/model/" + name + "/" + VectorizerFile
  {
    ModelLayout(baseDir, name);
    VectorizerLayout(baseDir, name);
  }

  /** A model name that starts with `/` discards `BASE_DIR`: the vectorizer
      is looked up under the name itself and the model file at the absolute
      path `<prefix>_model.pkl` (the prefix also starts with `/`). */
  lemma AbsoluteNameLeavesBase(baseDir: string, name: string)
    requires name != [] && name[0] == '/'
    ensures ModelPath(baseDir, name) == FilenamePrefix(name) + "_model.pkl"
    ensures VectorizerPath(baseDir, name) == PathJoin(name, VectorizerFile)
  {
    var p := FilenamePrefix(name);
    assert p[0] == '/';
    assert (p + "_model.pkl")[0] == '/';
  }

  // ---------------------------------------------------------------------------
  // Properties of the guard chain
  // ---------------------------------------------------------------------------

  /** Anything but POST is refused with 405 before the body is looked at. */
  lemma MethodChecked(req: HttpRequest, baseDir: string, files: set<string>, prediction: Prediction)
    ensures Predict(req, baseDir, files, prediction).status == 405 <==> req.verb != "POST"
    ensures req.verb != "POST" ==>
      Predict(req, baseDir, files, prediction) == JsonResponse(405, map["error" := OnlyPostMessage])
  {
  }

  /** A body that is not JSON, or JSON that is not an object, ends in the
      exception handler. */
  lemma MalformedBodyIsUnexpected(req: HttpRequest, baseDir: string, files: set<string>, prediction: Prediction)
    requires req.verb == "POST" && (req.body.Undecodable? || !req.body.value.JObject?)
    ensures var r := Predict(req, baseDir, files, prediction);
      r.status == 500 && r.payload["error"] ==
        UnexpectedPrefix + (if req.body.Undecodable? then req.body.reason else NoAttribute(req.body.value, "get"))
  {
  }

  /** On a POSTed object, 400 is given exactly when `comment` or `model_name`
      is missing or falsy. Every non-empty string is truthy, so a comment of
      white space only passes. */
  lemma MissingFieldChecked(fields: map<string, Json>, baseDir: string, files: set<string>, prediction: Prediction)
    ensures var r := Predict(HttpRequest("POST", Decoded(JObject(fields))), baseDir, files, prediction);
      (r.status == 400 <==> !Truthy(Get(fields, "comment")) || !Truthy(Get(fields, "model_name"))) &&
      (r.status == 400 ==> r.payload["error"] == MissingFieldMessage)
    ensures forall c: string :: c != "" ==> Truthy(JString(c))
  {
  }

  /** With both fields present and truthy and `model_name` a string, 404 is
      given exactly when one of the two artifact files is absent, and the
      message names the model; otherwise the classifier decides between 200
      and 500. */
  lemma ArtifactsChecked(name: string, fields: map<string, Json>, baseDir: string, files: set<string>, prediction: Prediction)
    requires Truthy(Get(fields, "comment")) && Get(fields, "model_name") == JString(name) && name != ""
    ensures var r := Predict(HttpRequest("POST", Decoded(JObject(fields))), baseDir, files, prediction);
      var found := ModelPath(baseDir, name) in files && VectorizerPath(baseDir, name) in files;
      (r.status == 404 <==> !found) &&
      (r.status == 404 ==> r.payload["error"] == NotFoundPrefix + name) &&
      (found && prediction.Label? ==> r == JsonResponse(200, map["sentiment" := prediction.sentiment])) &&
      (found && prediction.Raised? ==> r == JsonResponse(500, map["error" := UnexpectedPrefix + prediction.reason]))
  {
  }

  /** A truthy `model_name` that is not a string fails in `replace`, before
      any file is looked at. */
  lemma NonStringModelNameIsUnexpected(fields: map<string, Json>, baseDir: string, files: set<string>, prediction: Prediction)
    requires Truthy(Get(fields, "comment")) && Truthy(Get(fields, "model_name")) && !Get(fields, "model_name").JString?
    ensures var r := Predict(HttpRequest("POST", Decoded(JObject(fields))), baseDir, files, prediction);
      r == JsonResponse(500, map["error" := UnexpectedPrefix + NoAttribute(Get(fields, "model_name"), "replace")])
  {
  }

  /** 200 is given only after every guard has passed, and carries the first
      predicted label as its one key. */
  lemma SuccessOnlyAfterGuards(req: HttpRequest, baseDir: string, files: set<string>, prediction: Prediction)
    requires Predict(req, baseDir, files, prediction).status == 200
    ensures req.verb == "POST" && req.body.Decoded? && req.body.value.JObject?
    ensures var f := req.body.value.fields;
      Truthy(Get(f, "comment")) && Truthy(Get(f, "model_name")) && Get(f, "model_name").JString? &&
      ModelPath(baseDir, Get(f, "model_name").s) in files &&
      VectorizerPath(baseDir, Get(f, "model_name").s) in files
    ensures prediction.Label? &&
      Predict(req, baseDir, files, prediction).payload == map["sentiment" := prediction.sentiment]
  {
  }

  /** Every 500 carries the handler's prefix. */
  lemma UnexpectedIsPrefixed(req: HttpRequest, baseDir: string, files: set<string>, prediction: Prediction)
    requires Predict(req, baseDir, files, prediction).status == 500
    ensures UnexpectedPrefix <= Predict(req, baseDir, files, prediction).payload["error"]
  {
  }
}
