/**
 * The sentiment page (apps/web/app/page.tsx): its five pieces of state, the
 * submit handler split at its one `await` into a synchronous start and a
 * settlement driven by the outcome of the request, and the pure projections
 * the page renders from its state.
 */
module Page {
  import opened Wrappers

  // ---------------------------------------------------------------------------
  // String.prototype.trim
  // ---------------------------------------------------------------------------

  /** The characters ECMAScript's `trim` removes: WhiteSpace (with every Zs
      space separator) and LineTerminator. */
  predicate IsJsSpace(c: char) {
    c == '\t' || c == '\n' || c == '\U{000B}' || c == '\U{000C}' || c == '\r' ||
    c == ' ' || c == '\U{00A0}' || c == '\U{1680}' || ('\U{2000}' <= c <= '\U{200A}') ||
    c == '\U{2028}' || c == '\U{2029}' || c == '\U{202F}' || c == '\U{205F}' ||
    c == '\U{3000}' || c == '\U{FEFF}'
  }

  /** Drops leading white space: the result is the suffix that starts at the
      first character that is not white space. */
  function TrimStart(s: string): (r: string)
    ensures |r| <= |s| && r == s[|s| - |r|..]
    ensures forall i :: 0 <= i < |s| - |r| ==> IsJsSpace(s[i])
    ensures r == [] || !IsJsSpace(r[0])
  {
    if s != [] && IsJsSpace(s[0]) then TrimStart(s[1..]) else s
  }

  /** Drops trailing white space: the result is the prefix that ends at the
      last character that is not white space. */
  function TrimEnd(s: string): (r: string)
    ensures |r| <= |s| && r == s[..|r|]
    ensures forall i :: |r| <= i < |s| ==> IsJsSpace(s[i])
    ensures r == [] || !IsJsSpace(r[|r| - 1])
  {
    if s != [] && IsJsSpace(s[|s| - 1]) then TrimEnd(s[..|s| - 1]) else s
  }

  /** `s.trim()`: the slice of `s` between its leading white space (what
      `TrimStart` drops) and its trailing white space; neither end of the
      result is white space. */
  function Trim(s: string): (r: string)
    ensures r == [] || (!IsJsSpace(r[0]) && !IsJsSpace(r[|r| - 1]))
    ensures var lo := |s| - |TrimStart(s)|;
      lo + |r| <= |s| && r == s[lo..lo + |r|] &&
      forall i :: lo + |r| <= i < |s| ==> IsJsSpace(s[i])
  {
    var t := TrimStart(s);
    var r := TrimEnd(t);
    PrefixOfSuffix(s, t, r);
    r
  }

  /** A prefix `r` of a suffix `t` of `s` is a slice of `s`; whatever of `t`
      follows `r` is a tail of `s`. */
  lemma PrefixOfSuffix(s: string, t: string, r: string)
    requires |t| <= |s| && t == s[|s| - |t|..]
    requires |r| <= |t| && r == t[..|r|]
    requires forall i :: |r| <= i < |t| ==> IsJsSpace(t[i])
    ensures |s| - |t| + |r| <= |s| && r == s[|s| - |t|..|s| - |t| + |r|]
    ensures forall i :: |s| - |t| + |r| <= i < |s| ==> IsJsSpace(s[i])
  {
    var lo := |s| - |t|;
    forall i | lo + |r| <= i < |s|
      ensures IsJsSpace(s[i])
    {
      assert s[i] == t[i - lo];
    }
  }

  /** `!s.trim()`: the trimmed text is the empty string, which happens exactly
      when every character of `s` is white space. */
  function IsBlank(s: string): (b: bool)
    ensures b <==> forall i :: 0 <= i < |s| ==> IsJsSpace(s[i])
  {
    Trim(s) == ""
  }

  // ---------------------------------------------------------------------------
  // Page state and the submit handler
  // ---------------------------------------------------------------------------

  /** The five `useState` variables of the page. */
  datatype PageState = PageState(model: string, comment: string, result: string, error: string, loading: bool)

  /** The JSON body of the POST to `/api/predict/`. */
  datatype PredictRequest = PredictRequest(comment: string, modelName: string)

  /** How the request ends, as seen by the handler: an ok response with the
      body's `sentiment`; a response that is not ok, with the body's `error`
      field when it has one; or an exception (the fetch failed or a body was
      not JSON) with its message. */
  datatype Outcome = Ok(sentiment: string) | HttpError(errorField: Option<string>) | Thrown(message: string)

  /** The state after the synchronous part of the handler, with the request it
      issues, if any. */
  datatype Submission = Submission(state: PageState, request: Option<PredictRequest>)

  const EmptyCommentMessage := "Komentar tidak boleh kosong."
  const GenericErrorMessage := "Something went wrong"

  /** The options of the model selector, in display order. */
  const Models: seq<string> := ["decision-tree", "knn", "naive_bayes", "svm"]

  /** The state the page mounts with. */
  const Initial := PageState("decision-tree", "", "", "", false)

  /** The synchronous part of `handleSubmit`, up to the `fetch`. */
  function Begin(s: PageState): (r: Submission)
    ensures r.state.model == s.model && r.state.comment == s.comment
    ensures r.request.Some? <==> !IsBlank(s.comment)
    ensures r.request.None? ==> r.state.result == s.result && r.state.loading == s.loading
    ensures r.request.Some? ==> r.state.loading && r.state.result == "" && r.state.error == ""
  {
    if IsBlank(s.comment) then
      Submission(s.(error := EmptyCommentMessage), None)
    else
      Submission(s.(loading := true, result := "", error := ""), Some(PredictRequest(s.comment, s.model)))
  }

  /** `err.error || 'Something went wrong'`: the message of the error thrown
      for a response that is not ok. */
  function HttpErrorMessage(field: Option<string>): (m: string)
    ensures m != ""
    ensures field.Some? && field.value != "" ==> m == field.value
    ensures field.None? || field.value == "" ==> m == GenericErrorMessage
  {
    if field.Some? && field.value != "" then field.value else GenericErrorMessage
  }

  /** The rest of `handleSubmit`: the `try` body or the `catch`, then the
      `finally`. */
  function Finish(s: PageState, outcome: Outcome): (t: PageState)
    ensures !t.loading && t.model == s.model && t.comment == s.comment
    ensures outcome.Ok? ==> t.error == s.error
    ensures !outcome.Ok? ==> t.result == s.result
  {
    match outcome
    case Ok(sentiment) => s.(result := sentiment, loading := false)
    case HttpError(field) => s.(error := HttpErrorMessage(field), loading := false)
    case Thrown(message) => s.(error := message, loading := false)
  }

  /** No result is ever on screen while a request started by the page is
      being awaited. */
  predicate NoResultWhileLoading(s: PageState) {
    s.loading ==> s.result == ""
  }

  /** The page component. Each method is one event handler; React's state
      setters become field updates. */
  class Home {
    var model: string
    var comment: string
    var result: string
    var error: string
    var loading: bool

    function State(): PageState
      reads this
    {
      PageState(model, comment, result, error, loading)
    }

    constructor ()
      ensures State() == Initial
      ensures NoResultWhileLoading(State())
    {
      model, comment, result, error, loading := "decision-tree", "", "", "", false;
    }

    /** The selector's `onChange`. */
    method SelectModel(m: string)
      requires NoResultWhileLoading(State())
      modifies this
      ensures State() == old(State()).(model := m)
      ensures NoResultWhileLoading(State())
    {
      model := m;
    }

    /** The text area's `onChange`. */
    method EditComment(c: string)
      requires NoResultWhileLoading(State())
      modifies this
      ensures State() == old(State()).(comment := c)
      ensures NoResultWhileLoading(State())
    {
      comment := c;
    }

    /** `handleSubmit` up to the `fetch`; `request` is the request it sends. */
    method Start() returns (request: Option<PredictRequest>)
      requires NoResultWhileLoading(State())
      modifies this
      ensures Submission(State(), request) == Begin(old(State()))
      ensures NoResultWhileLoading(State())
    {
      if IsBlank(comment) {
        error := EmptyCommentMessage;
        return None;
      }
      loading := true;
      result := "";
      error := "";
      request := Some(PredictRequest(comment, model));
    }

    /** `handleSubmit` after the `fetch` resolves or rejects. */
    method Settle(outcome: Outcome)
      requires NoResultWhileLoading(State())
      modifies this
      ensures State() == Finish(old(State()), outcome)
      ensures NoResultWhileLoading(State())
    {
      match outcome {
        case Ok(sentiment) =>
          result := sentiment;
        case HttpError(field) =>
          error := HttpErrorMessage(field);
        case Thrown(message) =>
          error := message;
      }
      loading := false;
    }
  }

  // ---------------------------------------------------------------------------
  // The page as a sequence of events
  // ---------------------------------------------------------------------------

  /** What can happen to the page: a handler runs, or an awaited request
      settles. Settlements are not tied to particular submissions, so every
      interleaving of overlapping submissions is covered. */
  datatype Event = ModelSelected(m: string) | CommentEdited(c: string) | Submitted | Settled(outcome: Outcome)

  function Step(s: PageState, e: Event): (t: PageState)
    ensures t.model == if e.ModelSelected? then e.m else s.model
    ensures t.comment == if e.CommentEdited? then e.c else s.comment
    ensures e.ModelSelected? || e.CommentEdited? ==>
      t.result == s.result && t.error == s.error && t.loading == s.loading
  {
    match e
    case ModelSelected(m) => s.(model := m)
    case CommentEdited(c) => s.(comment := c)
    case Submitted => Begin(s).state
    case Settled(outcome) => Finish(s, outcome)
  }

  function Run(s: PageState, events: seq<Event>): (t: PageState)
    ensures (forall e :: e in events ==> e.ModelSelected? || e.CommentEdited?) ==>
      t.result == s.result && t.error == s.error && t.loading == s.loading
    decreases |events|
  {
    if events == [] then s else Run(Step(s, events[0]), events[1..])
  }

  /** Whether the page lets an event happen: the form is submitted only
      through its button, which is disabled while loading or while the comment
      is blank, so at most one request is awaited and a settlement only
      arrives while it is. */
  predicate Enabled(s: PageState, e: Event)
    ensures Enabled(s, e) && e.Submitted? ==> !s.loading && !IsBlank(s.comment)
  {
    match e
    case Submitted => !SubmitDisabled(s)
    case Settled(_) => s.loading
    case _ => true
  }

  /** Every event of the sequence is enabled in the state it arrives in. */
  predicate Feasible(s: PageState, events: seq<Event>)
    ensures Feasible(s, events) && events != [] && events[0].Submitted? ==> !s.loading && !IsBlank(s.comment)
    ensures Feasible(s, events) && events != [] && events[0].Settled? ==> s.loading
    decreases |events|
  {
    events == [] || (Enabled(s, events[0]) && Feasible(Step(s, events[0]), events[1..]))
  }

  /** At most one of `result` and `error` is set, and neither while a request
      is awaited. */
  predicate Exclusive(s: PageState) {
    !(s.result != "" && s.error != "") && (s.loading ==> s.result == "" && s.error == "")
  }

  // ---------------------------------------------------------------------------
  // What the page renders
  // ---------------------------------------------------------------------------

  /** `names[modelName] || modelName`. */
  const DisplayNames: map<string, string> := map[
    "decision-tree" := "Decision Tree",
    "knn" := "K-Nearest Neighbors",
    "naive_bayes" := "Naive Bayes",
    "svm" := "Support Vector Machine"]

  /** `getModelDisplayName`: the table's name for a known id, any other
      string unchanged. */
  function DisplayName(m: string): (r: string)
    ensures m in DisplayNames ==> r == DisplayNames[m] && r != m && r != ""
    ensures m !in DisplayNames ==> r == m
  {
    if m in DisplayNames && DisplayNames[m] != "" then DisplayNames[m] else m
  }

  /** `disabled={loading || !comment.trim()}`. */
  function SubmitDisabled(s: PageState): (d: bool)
    ensures d <==> s.loading || forall i :: 0 <= i < |s.comment| ==> IsJsSpace(s.comment[i])
  {
    s.loading || IsBlank(s.comment)
  }

  datatype Sentiment = Positive | Negative

  /** The result card: its colour and icon, its caption and the model line. */
  datatype ResultCard = ResultCard(sentiment: Sentiment, caption: string, modelName: string)

  /** Everything the page shows that depends on its state. */
  datatype View = View(card: Option<ResultCard>, errorBox: Option<string>, submitDisabled: bool, busy: bool)

  /** The caption as the file stores it: each ends in an emoji whose UTF-8
      bytes were once re-read as Mac Roman, leaving four other characters. */
  function Caption(v: Sentiment): (c: string)
    ensures (if v == Positive then "Positif " else "Negatif ") <= c
  {
    match v
    case Positive => "Positif \U{F8FF}\U{00FC}\U{00F2}\U{00E4}"
    case Negative => "Negatif \U{F8FF}\U{00FC}\U{00F2}\U{00EE}"
  }

  /** The JSX conditions: a card while `result` is truthy, positive only for
      exactly `'positive'`; an error box while `error` is truthy; the spinner
      while `loading`. */
  function Render(s: PageState): (v: View)
    ensures v.card.Some? <==> s.result != ""
    ensures v.errorBox.Some? <==> s.error != ""
    ensures v.busy == s.loading && v.submitDisabled == SubmitDisabled(s)
  {
    var card :=
      if s.result == "" then None
      else
        var v := if s.result == "positive" then Positive else Negative;
        Some(ResultCard(v, Caption(v), DisplayName(s.model)));
    View(card, if s.error == "" then None else Some(s.error), SubmitDisabled(s), s.loading)
  }

  // ---------------------------------------------------------------------------
  // Properties
  // ---------------------------------------------------------------------------

  /** A blank comment is refused locally: the error is set, no request is
      made, and `result`, `loading` and the inputs are left as they were. */
  lemma BlankCommentRefused(s: PageState)
    requires forall i :: 0 <= i < |s.comment| ==> IsJsSpace(s.comment[i])
    ensures Begin(s).request == None
    ensures Begin(s).state.error == EmptyCommentMessage
    ensures Begin(s).state.result == s.result && Begin(s).state.loading == s.loading
    ensures Begin(s).state.model == s.model && Begin(s).state.comment == s.comment
  {
  }

  /** A comment with a character other than white space issues exactly one
      request, carrying the untrimmed comment and the selected model, after
      clearing `result` and `error` and setting `loading`, whatever `loading`
      was before (the handler has no guard against a second submission). */
  lemma CommentSubmitted(s: PageState, k: nat)
    requires k < |s.comment| && !IsJsSpace(s.comment[k])
    ensures Begin(s).request == Some(PredictRequest(s.comment, s.model))
    ensures Begin(s).state == s.(result := "", error := "", loading := true)
  {
  }

  /** Settling always ends the wait and never touches the inputs; an ok
      response sets only `result`, any failure sets only `error`. */
  lemma SettleEffect(s: PageState, outcome: Outcome)
    ensures !Finish(s, outcome).loading
    ensures Finish(s, outcome).model == s.model && Finish(s, outcome).comment == s.comment
    ensures outcome.Ok? ==> Finish(s, outcome) == s.(result := outcome.sentiment, loading := false)
    ensures !outcome.Ok? ==> Finish(s, outcome).result == s.result
    ensures outcome.HttpError? ==> Finish(s, outcome).error == HttpErrorMessage(outcome.errorField) && Finish(s, outcome).error != ""
    ensures outcome.Thrown? ==> Finish(s, outcome) == s.(error := outcome.message, loading := false)
  {
  }

  /** One submission run to its end: exactly the outcome's data is shown,
      `result` and `error` are never both set, the wait is over, the inputs are
      unchanged and the button is enabled again. */
  lemma SubmissionSettles(s: PageState, k: nat, outcome: Outcome)
    requires k < |s.comment| && !IsJsSpace(s.comment[k])
    ensures var t := Finish(Begin(s).state, outcome);
      !(t.result != "" && t.error != "") &&
      !t.loading && !SubmitDisabled(t) &&
      t.model == s.model && t.comment == s.comment &&
      (outcome.Ok? ==> t.result == outcome.sentiment && t.error == "") &&
      (outcome.HttpError? ==> t.result == "" && t.error == HttpErrorMessage(outcome.errorField)) &&
      (outcome.Thrown? ==> t.result == "" && t.error == outcome.message)
  {
  }

  /** When the handler runs with a blank comment (which the disabled button
      prevents on the page), it does not clear an earlier result, so both the
      result card and the error box would be on screen. */
  lemma RefusalKeepsOldResult(s: PageState)
    requires s.result != "" && IsBlank(s.comment)
    ensures Render(Begin(s).state).card.Some?
    ensures Render(Begin(s).state).errorBox == Some(EmptyCommentMessage)
  {
  }

  /** Two overlapping submissions: the second is sent although the first is
      still awaited, and the first settling turns `loading` off while the
      second is still awaited. */
  lemma OverlappingSubmissions(s: PageState, k: nat, first: Outcome)
    requires k < |s.comment| && !IsJsSpace(s.comment[k])
    ensures var s1 := Begin(s).state;
      s1.loading && Begin(s1).request == Begin(s).request &&
      !Finish(Begin(s1).state, first).loading
  {
  }

  /** Every event keeps the page from showing a result while it waits. */
  lemma StepKeepsNoResultWhileLoading(s: PageState, e: Event)
    requires NoResultWhileLoading(s)
    ensures NoResultWhileLoading(Step(s, e))
  {
  }

  /** From any state without a result while loading, whatever the events, no
      result is shown while loading,
      and the model and comment change only through their own handlers. */
  lemma {:induction false} RunKeepsNoResultWhileLoading(s: PageState, events: seq<Event>)
    requires NoResultWhileLoading(s)
    ensures NoResultWhileLoading(Run(s, events))
    ensures (forall i :: 0 <= i < |events| ==> !events[i].ModelSelected?) ==> Run(s, events).model == s.model
    ensures (forall i :: 0 <= i < |events| ==> !events[i].CommentEdited?) ==> Run(s, events).comment == s.comment
    decreases |events|
  {
    if events != [] {
      StepKeepsNoResultWhileLoading(s, events[0]);
      RunKeepsNoResultWhileLoading(Step(s, events[0]), events[1..]);
      if forall i :: 0 <= i < |events| ==> !events[i].ModelSelected? {
        assert !events[0].ModelSelected?;
        assert forall i :: 0 <= i < |events[1..]| ==> !events[1..][i].ModelSelected? by {
          forall i | 0 <= i < |events[1..]| ensures !events[1..][i].ModelSelected? {
            assert events[1..][i] == events[i + 1];
          }
        }
      }
      if forall i :: 0 <= i < |events| ==> !events[i].CommentEdited? {
        assert !events[0].CommentEdited?;
        assert forall i :: 0 <= i < |events[1..]| ==> !events[1..][i].CommentEdited? by {
          forall i | 0 <= i < |events[1..]| ensures !events[1..][i].CommentEdited? {
            assert events[1..][i] == events[i + 1];
          }
        }
      }
    }
  }

  /** A submission the button lets through is never refused: it always
      sends the request and starts the wait. */
  lemma EnabledSubmitSends(s: PageState)
    requires Enabled(s, Submitted)
    ensures !s.loading
    ensures Begin(s).request == Some(PredictRequest(s.comment, s.model))
    ensures Begin(s).state.loading
  {
  }

  /** Every event the page lets happen keeps `Exclusive`. */
  lemma EnabledStepKeepsExclusive(s: PageState, e: Event)
    requires Exclusive(s) && Enabled(s, e)
    ensures Exclusive(Step(s, e))
  {
  }

  /** From mount on, along every sequence of events the page lets happen, the
      page never shows a result and an error together, and shows neither
      while it waits. */
  lemma {:induction false} FeasibleRunExclusive(s: PageState, events: seq<Event>)
    requires Exclusive(s) && Feasible(s, events)
    ensures Exclusive(Run(s, events))
    decreases |events|
  {
    if events != [] {
      EnabledStepKeepsExclusive(s, events[0]);
      FeasibleRunExclusive(Step(s, events[0]), events[1..]);
    }
  }

  /** The mounted page satisfies `Exclusive`, so every feasible run from it
      does. */
  lemma InitialExclusive(events: seq<Event>)
    requires Feasible(Initial, events)
    ensures Exclusive(Run(Initial, events))
  {
    FeasibleRunExclusive(Initial, events);
  }

  /** The result card is shown exactly while `result` is non-empty, and it is
      positive only for exactly `'positive'`: `'negative'`, `'Positive'` or any
      other label is shown as negative. */
  lemma ResultCardChoice(s: PageState)
    ensures Render(s).card.Some? <==> s.result != ""
    ensures Render(s).card.Some? ==>
      (Render(s).card.value.sentiment == Positive <==> s.result == "positive") &&
      Render(s).card.value.modelName == DisplayName(s.model) &&
      Render(s).card.value.caption == Caption(Render(s).card.value.sentiment)
    ensures Render(s).errorBox.Some? <==> s.error != ""
    ensures Render(s).busy == s.loading
  {
  }

  /** Every option of the selector has its own display name. */
  lemma ModelOptionsNamed()
    ensures forall m :: m in Models ==> m in DisplayNames && DisplayName(m) != m
    ensures forall i, j :: 0 <= i < j < |Models| ==> DisplayName(Models[i]) != DisplayName(Models[j])
    ensures Initial.model in Models
  {
  }

  /** Submitting "bagus sekali" with the SVM model and an ok response of
      "positive" shows a positive card naming the model and no error. */
  lemma PositiveSvmScenario(result: string, error: string, loading: bool)
    ensures var s := PageState("svm", "bagus sekali", result, error, loading);
      var v := Render(Finish(Begin(s).state, Ok("positive")));
      v.card == Some(ResultCard(Positive, Caption(Positive), "Support Vector Machine")) &&
      v.errorBox == None && !v.busy
  {
    assert !IsJsSpace("bagus sekali"[0]);
  }

  /** Submitting "jelek" with k-NN and a 500 response carrying an `error`
      field shows that message and no card. */
  lemma ServerErrorScenario(result: string, error: string, loading: bool)
    ensures var s := PageState("knn", "jelek", result, error, loading);
      var v := Render(Finish(Begin(s).state, HttpError(Some("model unavailable"))));
      v.card == None && v.errorBox == Some("model unavailable") && !v.busy
  {
    assert !IsJsSpace("jelek"[0]);
  }

  /** When the handler runs with three spaces (which the disabled button
      prevents on the page), it sends nothing and sets the validation
      message; the button is disabled in that state. */
  lemma WhitespaceScenario(s: PageState)
    requires s.comment == "   "
    ensures Begin(s).request == None
    ensures Render(Begin(s).state).errorBox == Some(EmptyCommentMessage)
    ensures Render(Begin(s).state).submitDisabled
  {
  }
}
