# Sentiment page and prediction endpoint, modelled in Dafny

The system lets a user pick one of four sentiment classifiers (`decision-tree`,
`knn`, `naive_bayes`, `svm`), type a comment and see whether it is predicted
positive or negative. This project models the two pieces of decision logic on
either side of that request:

- **The page** (`apps/web/app/page.tsx`, module `Page` in `page.dfy`). It has five pieces of
  state: `model`, `comment`, `result`, `error` and `loading` (`PageState`). The class
  `Home` holds them as fields. Its methods are the page's event handlers. The two
  halves of `handleSubmit` are `Start`, which runs up to the `fetch` and returns the
  request it sends (if any), and `Settle`, which takes the abstract `Outcome` of the
  request. `Start` and `Settle` are specified by pure functions (`Begin`, `Finish`).
  `SelectModel` and `EditComment` replace one field each. Every method keeps the
  invariant `NoResultWhileLoading`. `Render` gives what the page shows: the
  result card, the error box, the disabled state of the button and the spinner.
  `String.prototype.trim` is modelled character by character (`TrimStart`, `TrimEnd`,
  `Trim`, `IsBlank`), with the ECMAScript white-space set.
- **The endpoint** (`apps/api/prediction/views.py`, module `Views` in `views.dfy`).
  `Predict` is the guard chain of `predict`. It maps the HTTP method, the body after
  `json.loads`, `BASE_DIR`, the set of existing files and the classifier's answer to a
  status and a one-key JSON payload. The file-name prefix is `ReplaceAll`. Paths follow
  `posixpath.join`, so a component that starts with `/` discards the path built so far.
- **Both together** (module `EndToEnd` in `end_to_end.dfy`) connect the body the page sends
  to the response the endpoint gives and to what the page then shows.

Facts about the code that the model makes explicit:

- `handleSubmit` has no guard on `loading`. Only the button's `disabled` attribute
  (page.tsx:138) stops a second submission. When the handler itself is called twice,
  the first settlement turns `loading` off while the second request is still pending
  (`OverlappingSubmissions`).
- On the page, the form is submitted only through that button. With that gate, at most
  one of `result` and `error` is set at any time, and neither is set while loading
  (`FeasibleRunExclusive`). The handler's own refusal branch (page.tsx:27-30) sets
  `error` but keeps an earlier `result` (`RefusalKeepsOldResult`). That branch is
  reached only when the handler is called with a blank comment, which the disabled
  button prevents.
- The page never checks the model id against its list of models. The endpoint only
  checks that `model_name` is present and truthy.

## Model

| member | source | states |
|---|---|---|
| `Page.TrimStart` | apps/web/app/page.tsx:27 | The leading white space of the comment is dropped. The result is a suffix, everything dropped is white space, and the result does not start with white space. |
| `Page.TrimEnd` | apps/web/app/page.tsx:27 | The trailing white space is dropped. The result is a prefix, everything dropped is white space, and the result does not end with white space. |
| `Page.Trim` | apps/web/app/page.tsx:27 | `comment.trim()` is the slice between the leading and trailing white space. Neither end of it is white space. |
| `Page.IsBlank` | apps/web/app/page.tsx:27 | `!comment.trim()` holds exactly when every character of the comment is white space. |
| `Page.HttpErrorMessage` | apps/web/app/page.tsx:46-48 | The message thrown for a response that is not ok is never empty. It is the body's `error` when that is a non-empty string, otherwise `'Something went wrong'`. |
| `Page.Home.constructor` | apps/web/app/page.tsx:6-10 | The page mounts with model `decision-tree`, empty comment, result and error, and `loading` false. |
| `Page.Home.SelectModel` | apps/web/app/page.tsx:97 | The selector changes `model` and nothing else. |
| `Page.Home.EditComment` | apps/web/app/page.tsx:123 | The text area changes `comment` and nothing else. |
| `Page.Home.Start` | apps/web/app/page.tsx:24-44 | The synchronous part of `handleSubmit` updates the state and returns the request exactly as `Begin` says, and it keeps `NoResultWhileLoading`. |
| `Page.Home.Settle` | apps/web/app/page.tsx:45-57 | The rest of `handleSubmit` (the `try` body or the `catch`, then the `finally`) updates the state exactly as `Finish` says, and it keeps `NoResultWhileLoading`. |
| `Page.Begin` | apps/web/app/page.tsx:24-44 | The synchronous part of `handleSubmit` keeps `model` and `comment`, and it sends a request exactly when the comment is not blank. A refusal keeps `result` and `loading`. A request clears `result` and `error` and sets `loading`. The branches in full are in `BlankCommentRefused` and `CommentSubmitted`. |
| `Page.Finish` | apps/web/app/page.tsx:45-57 | Settling clears `loading` and keeps the inputs. An ok outcome leaves `error` alone, and any failure leaves `result` alone. The effect per outcome is in `SettleEffect`. |
| `Page.Step` | apps/web/app/page.tsx:24-123 | One event of the page. `model` changes only when a model is selected, and `comment` only when it is edited. Those two events leave `result`, `error` and `loading` alone. |
| `Page.Run` | apps/web/app/page.tsx:24-123 | A sequence of events. One made only of model selections and comment edits leaves `result`, `error` and `loading` as they were. |
| `Page.Feasible` | apps/web/app/page.tsx:24-138 | Whether the page allows a sequence of events. A submission at its head happens only while not loading and with a non-blank comment, and a settlement at its head only while loading. |
| `Page.Enabled` | apps/web/app/page.tsx:87-138 | The page allows a submission only through the enabled button, so an allowed submission comes with a non-blank comment while not loading. A settlement is allowed only while waiting. |
| `Page.Caption` | apps/web/app/page.tsx:181 | The caption starts with "Positif " for a positive result and with "Negatif " otherwise, followed by the characters the file stores. |
| `Page.Render` | apps/web/app/page.tsx:141-207 | The card is shown exactly when `result` is non-empty and the error box exactly when `error` is non-empty. The spinner follows `loading`, and the button's disabled state follows `SubmitDisabled`. The label choice is in `ResultCardChoice`. |
| `Page.DisplayName` | apps/web/app/page.tsx:14-22 | The four known ids get their display names, each different from the id. Any other string is returned unchanged. |
| `Page.SubmitDisabled` | apps/web/app/page.tsx:138 | The button is disabled exactly when `loading` is true or the comment is all white space. |
| `Page.BlankCommentRefused` | apps/web/app/page.tsx:27-30 | A blank comment sends no request. It sets `error` to `'Komentar tidak boleh kosong.'` and leaves `result`, `loading`, `model` and `comment` as they were. |
| `Page.CommentSubmitted` | apps/web/app/page.tsx:32-44 | A comment with a non-space character sends one request. The request carries the untrimmed comment and the selected model. Before it is sent, `result` and `error` are cleared and `loading` is set, whatever `loading` was. |
| `Page.SettleEffect` | apps/web/app/page.tsx:45-57 | Settling always sets `loading` to false and never changes `model` or `comment`. An ok response sets only `result`, to the body's `sentiment`. A response that is not ok or a thrown error sets only `error`. |
| `Page.SubmissionSettles` | apps/web/app/page.tsx:24-58 | After one accepted submission has settled, `result` and `error` are never both non-empty. Exactly the outcome's data is shown, `loading` is false, the inputs are unchanged and the button is enabled again. |
| `Page.RefusalKeepsOldResult` | apps/web/app/page.tsx:27-30 | When the handler is called with a blank comment, it does not clear an earlier result, so the result card and the error box would both be shown. The disabled button prevents this call on the page. |
| `Page.OverlappingSubmissions` | apps/web/app/page.tsx:24-34 | A second submission made while the first is pending still sends the same request. The first settlement then turns `loading` off. |
| `Page.StepKeepsNoResultWhileLoading` | apps/web/app/page.tsx:24-58 | Every event handler and every settlement keeps `result` empty while `loading` is true. |
| `Page.RunKeepsNoResultWhileLoading` | apps/web/app/page.tsx:6-58 | For any sequence of events from a state that holds the invariant, no result is shown while `loading` is true. `model` and `comment` change only through their own handlers. |
| `Page.EnabledSubmitSends` | apps/web/app/page.tsx:24-44 | A submission the button lets through (page.tsx:138) is never refused. It happens only when not loading, sends the request with the comment and model, and starts the wait. |
| `Page.EnabledStepKeepsExclusive` | apps/web/app/page.tsx:24-58 | Every event the page allows keeps both properties: at most one of `result` and `error` is set, and neither is set while loading. |
| `Page.FeasibleRunExclusive` | apps/web/app/page.tsx:24-138 | Along any sequence of events the page allows, the following holds throughout: `result` and `error` are never both non-empty, and neither is set while loading. The page allows a submission only through the enabled button, and a settlement only while waiting. |
| `Page.InitialExclusive` | apps/web/app/page.tsx:6-138 | From mount, every sequence of events the page allows ends in a state where `result` and `error` are never both set, and neither is set while loading. |
| `Page.ResultCardChoice` | apps/web/app/page.tsx:141-207 | The result card is shown exactly when `result` is non-empty. It is positive exactly for `'positive'`, so any other non-empty label is shown as negative. The card names the model by its display name, and its caption is the one for the shown sentiment. The error box is shown exactly when `error` is non-empty, and the spinner exactly while `loading`. |
| `Page.ModelOptionsNamed` | apps/web/app/page.tsx:6-22 | Every option of the selector, including the initial model, has a display name. The four display names are distinct. |
| `Page.PositiveSvmScenario` | apps/web/app/page.tsx:24-186 | "bagus sekali" with `svm` and an ok response of `positive` shows a positive card for "Support Vector Machine" and no error. |
| `Page.ServerErrorScenario` | apps/web/app/page.tsx:24-207 | "jelek" with `knn` and a response that is not ok, with error "model unavailable", shows that message and no card. |
| `Page.WhitespaceScenario` | apps/web/app/page.tsx:27-30 | When the handler is called with three spaces, it sends nothing and sets the validation message, and the button is disabled in that state. The disabled button prevents this call on the page. |
| `Views.Truthy` | apps/api/prediction/views.py:19 | Python truthiness: a string is truthy exactly when it is non-empty, and `None`, `False` and `0` are falsy. |
| `Views.FilenamePrefix` | apps/api/prediction/views.py:23 | `filename_prefix` has the length of `model_name` and contains no `-`. Further properties are in `PrefixProperties`. |
| `Views.PathJoin` | apps/api/prediction/views.py:24-25 | `posixpath.join(a, b)` always ends with `b`, and it is exactly `b` when `b` starts with `/`. |
| `Views.ModelPath` | apps/api/prediction/views.py:24 | The model path ends with `<prefix>_model.pkl`. The full layout is in `PathLayout` and `AbsoluteNameLeavesBase`. |
| `Views.VectorizerPath` | apps/api/prediction/views.py:25 | The vectorizer path ends with `tfidf_vectorizer.pkl`. The full layout is in `PathLayout` and `AbsoluteNameLeavesBase`. |
| `Views.ReplaceAll` | apps/api/prediction/views.py:23 | `str.replace` with one-character arguments keeps the length. Every occurrence of the pattern becomes the replacement, and every other character stays in place. |
| `Views.PrefixProperties` | apps/api/prediction/views.py:23 | `filename_prefix` has the length of `model_name` and contains no `-`. Applying it twice gives the same result as applying it once. It leaves a name without `-` unchanged. |
| `Views.JoinRelative` | apps/api/prediction/views.py:24-25 | `os.path.join` of a relative component onto a non-empty path without a trailing `/` inserts exactly one separator. |
| `Views.ModelDir` | apps/api/prediction/views.py:24-25 | Take a non-empty `BASE_DIR` without a trailing `/`, and a non-empty name that neither starts nor ends with `/`. The directory both paths share is then `BASE_DIR/model/<model_name>`, and it does not end with `/`. |
| `Views.ModelLayout` | apps/api/prediction/views.py:24 | Under the conditions of `ModelDir`, the model path is `BASE_DIR/model/<model_name>/<prefix>_model.pkl`. The directory uses the unmodified name and the file the prefix. |
| `Views.VectorizerLayout` | apps/api/prediction/views.py:25 | Under the conditions of `ModelDir`, the vectorizer path is `BASE_DIR/model/<model_name>/tfidf_vectorizer.pkl`. |
| `Views.PathLayout` | apps/api/prediction/views.py:24-25 | Take a non-empty `BASE_DIR` without a trailing `/`, and a non-empty name that neither starts nor ends with `/`. The paths are then `BASE_DIR/model/<model_name>/<prefix>_model.pkl` and `BASE_DIR/model/<model_name>/tfidf_vectorizer.pkl`. The directory uses the unmodified name. |
| `Views.AbsoluteNameLeavesBase` | apps/api/prediction/views.py:24-25 | A `model_name` that starts with `/` discards `BASE_DIR`. The model file is then the absolute path `<prefix>_model.pkl`, and the vectorizer is looked up under the name itself. |
| `Views.Predict` | apps/api/prediction/views.py:9-42 | Every response has status 200, 400, 404, 405 or 500. Its payload has exactly one key: `sentiment` for 200 and `error` otherwise. The error message is never empty. |
| `Views.Classify` | apps/api/prediction/views.py:22-42 | Once `model_name` is a string, the response is 200 exactly when both files exist and the classifier answers. Otherwise it is 404 or 500, with a non-empty `error` as its only key. |
| `Views.Unexpected` | apps/api/prediction/views.py:40-42 | The `except` handler answers 500 with `error` as the only key, and the message starts with `'An unexpected error occurred: '`. |
| `Views.Get` | apps/api/prediction/views.py:16-17 | `dict.get` gives the stored value for a present key. An absent key gives `None`, which is falsy. |
| `Views.NoAttribute` | apps/api/prediction/views.py:16-23 | The `AttributeError` message for a missing attribute starts with a quote and ends with `' object has no attribute '<attr>'`. |
| `Views.MethodChecked` | apps/api/prediction/views.py:10-11 | The status is 405 exactly for a method other than POST. Such a request gets `'Only POST method is allowed'` whatever its body. |
| `Views.MalformedBodyIsUnexpected` | apps/api/prediction/views.py:13-16 | A body that is not JSON, or JSON that is not an object, gives 500 with the handler's prefix and the exception's message. |
| `Views.MissingFieldChecked` | apps/api/prediction/views.py:16-20 | A POSTed object gets 400 exactly when `comment` or `model_name` is missing or falsy. Every non-empty string is truthy, so a comment made only of white space passes. |
| `Views.ArtifactsChecked` | apps/api/prediction/views.py:22-38 | For any POSTed object (extra keys included) whose `comment` is truthy and whose `model_name` is a non-empty string, the status is 404 exactly when one of the two files is missing, and the message names `model_name`. Otherwise the response is 200 with `{sentiment: label}`, or 500 when the classifier raises. |
| `Views.NonStringModelNameIsUnexpected` | apps/api/prediction/views.py:19-23 | In any POSTed object with a truthy `comment`, a truthy `model_name` that is not a string fails in `replace`. The response is 500 with Python's AttributeError text, before any file is checked. |
| `Views.SuccessOnlyAfterGuards` | apps/api/prediction/views.py:9-38 | A 200 response implies that the method was POST, the body was an object, `comment` and `model_name` were both truthy, `model_name` was a string, and both files exist. Its only key is the predicted label. |
| `Views.UnexpectedIsPrefixed` | apps/api/prediction/views.py:40-42 | Every 500 message starts with `'An unexpected error occurred: '`. |
| `EndToEnd.Encode` | apps/web/app/page.tsx:38-44 | The page's request reaches the endpoint as a POST of a JSON object whose `comment` and `model_name` are the request's strings. |
| `EndToEnd.Receive` | apps/web/app/page.tsx:46-52 | The handler sees an ok outcome exactly for a 2xx status. An ok body's `sentiment` becomes the result, and any other body's `error` becomes the error field. |
| `EndToEnd.PageRequestRoundTrip` | apps/web/app/page.tsx:36-57 | A request sent by the page never gets 405 or 400. It gets 500 only when the classifier raises. The page then shows the label, or the endpoint's error message verbatim. |
| `EndToEnd.KnownModelsSucceed` | apps/api/prediction/views.py:22-38 | For one of the four models and a comment with a non-space character, the page sends a request. With both files present and a classifier that answers, the request gets 200 and the page shows the label. |

## Left out

- The `fetch` itself, `response.json()` and the `NEXT_PUBLIC_API_URL` lookup (page.tsx lines 37-38) are not modelled. An abstract `Outcome` takes their place: an ok body's `sentiment`, the `error` field of a body that is not ok, or the message of a thrown exception (network failure or a body that is not JSON).
- Page.Home.Settle: a `sentiment` or `error` field that is not a string is not modelled. The page only tests `result` for truthiness and equality with `'positive'`, so an absent `sentiment` is treated like `''`.
- Page.DisplayName: property names inherited from `Object.prototype` (such as `constructor`) are treated like any other unknown id. The selector only ever supplies one of the four known ids.
- React's batching of state updates and re-rendering are not modelled. Each handler's updates are applied together.
- `Run` does not check whether the page allows each event. Settlements are not matched to particular submissions, so `Run` also covers sequences the page cannot produce. `Feasible` restricts runs to the events the page allows.
- Page.Caption: the captions are the characters the file actually stores. Each ends in an emoji whose UTF-8 bytes were re-read as Mac Roman (U+F8FF followed by three Latin-1 letters), not the emoji the author evidently meant.
- All JSX, CSS and animation are not modelled, apart from the conditions that decide what is shown (`Render`).
- `joblib.load`, `vectorizer.transform` and `model.predict` are not modelled. Their combined effect is an input `Prediction`: the first label, or the message of the exception raised. This includes an empty prediction and a label that `JsonResponse` cannot serialise.
- `os.path.exists` is not modelled as a file-system call. The set of existing paths is an input instead.
- `BASE_DIR` is an input string. Django's settings and the `csrf_exempt` decorator are not modelled.
- JSON numbers are reduced to integers and to floats known only by whether they are zero. That is all that truthiness and Python type names need.
- The exact text of a `json.loads` error is an input (`Undecodable`).
- `apps/api/prediction/middleware.py`, the training scripts and the comparison script are not part of this model.
