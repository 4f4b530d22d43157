/** The evaluation form: its initial state, field edits and the dirty-field
    set they grow, the create and partial-update payloads, and the submit
    routine that routes to create or update and records the outcome. */
module EvaluationForm {
  import opened Wrappers
  import opened Http
  import opened EvaluationTypes

  /** The keys of the form data (`keyof EvaluationFormData`). */
  datatype Field =
    | EmployeeIdField | PeriodField | MetricsField | CommentsField
    | RecommendationsField | OverallScoreField | StatusField

  /** The form's editable record (`EvaluationFormData`). */
  datatype FormData = FormData(
    employeeId: string,
    period: Period,
    metrics: seq<Metric>,
    comments: string,
    recommendations: string,
    overallScore: Option<real>,
    status: Option<EvaluationStatus>)

  /** A `handleChange(key, value)` call: the key together with a value of
      that key's type. */
  datatype Edit =
    | EmployeeIdTo(employeeId: string)
    | PeriodTo(period: Period)
    | MetricsTo(metrics: seq<Metric>)
    | CommentsTo(comments: string)
    | RecommendationsTo(recommendations: string)
    | OverallScoreTo(overallScore: Option<real>)
    | StatusTo(status: Option<EvaluationStatus>)

  function FieldOf(e: Edit): Field
  {
    match e
    case EmployeeIdTo(_) => EmployeeIdField
    case PeriodTo(_) => PeriodField
    case MetricsTo(_) => MetricsField
    case CommentsTo(_) => CommentsField
    case RecommendationsTo(_) => RecommendationsField
    case OverallScoreTo(_) => OverallScoreField
    case StatusTo(_) => StatusField
  }

  /** The current value of field `k`, as the edit that would set it. */
  function Current(d: FormData, k: Field): (e: Edit)
    ensures FieldOf(e) == k
  {
    match k
    case EmployeeIdField => EmployeeIdTo(d.employeeId)
    case PeriodField => PeriodTo(d.period)
    case MetricsField => MetricsTo(d.metrics)
    case CommentsField => CommentsTo(d.comments)
    case RecommendationsField => RecommendationsTo(d.recommendations)
    case OverallScoreField => OverallScoreTo(d.overallScore)
    case StatusField => StatusTo(d.status)
  }

  /** `{ ...prev, [key]: value }`: field `FieldOf(e)` takes the new value
      and every other field keeps its old one. */
  function Assign(d: FormData, e: Edit): (r: FormData)
    ensures Current(r, FieldOf(e)) == e
    ensures forall k :: k != FieldOf(e) ==> Current(r, k) == Current(d, k)
  {
    match e
    case EmployeeIdTo(v) => d.(employeeId := v)
    case PeriodTo(v) => d.(period := v)
    case MetricsTo(v) => d.(metrics := v)
    case CommentsTo(v) => d.(comments := v)
    case RecommendationsTo(v) => d.(recommendations := v)
    case OverallScoreTo(v) => d.(overallScore := v)
    case StatusTo(v) => d.(status := v)
  }

  /** Two form records with the same value in every field are equal. */
  lemma FieldsDetermineData(a: FormData, b: FormData)
    requires forall k :: Current(a, k) == Current(b, k)
    ensures a == b
  {
    assert Current(a, EmployeeIdField) == Current(b, EmployeeIdField);
    assert Current(a, PeriodField) == Current(b, PeriodField);
    assert Current(a, MetricsField) == Current(b, MetricsField);
    assert Current(a, CommentsField) == Current(b, CommentsField);
    assert Current(a, RecommendationsField) == Current(b, RecommendationsField);
    assert Current(a, OverallScoreField) == Current(b, OverallScoreField);
    assert Current(a, StatusField) == Current(b, StatusField);
  }

  /** Setting a field to the value it already holds changes nothing. */
  lemma AssignCurrentIsIdentity(d: FormData, k: Field)
    ensures Assign(d, Current(d, k)) == d
  {
  }

  /** The component's whole state: its props (`employeeId`,
      `existingEvaluation`) and its state hooks. */
  datatype Form = Form(
    employeeId: string,
    existing: Option<UpdateEvaluation>,
    evaluation: FormData,
    changed: set<Field>,
    score: Option<real>,
    error: Option<string>,
    isLoading: bool)

  /** The initial form record: fields come from the existing evaluation
      when it carries them, otherwise from the defaults; the period's start
      and end are two separate readings of the clock. */
  function InitialData(employeeId: string, existing: Option<UpdateEvaluation>, start: Date, end: Date): (d: FormData)
    ensures d.employeeId == employeeId && d.period == Period(start, end)
    ensures existing.Some? && existing.value.metrics.Some? ==> d.metrics == existing.value.metrics.value
    ensures existing.None? || existing.value.metrics.None? ==> d.metrics == []
    ensures existing.Some? && existing.value.comments.Some? ==> d.comments == existing.value.comments.value
    ensures existing.None? || existing.value.comments.None? ==> d.comments == ""
    ensures existing.Some? && existing.value.recommendations.Some? ==>
        d.recommendations == existing.value.recommendations.value
    ensures existing.None? || existing.value.recommendations.None? ==> d.recommendations == ""
    ensures existing.Some? ==> d.overallScore == existing.value.overallScore
    ensures existing.None? ==> d.overallScore == None
    ensures existing.Some? && existing.value.status.Some? ==> d.status == existing.value.status
    ensures existing.None? || existing.value.status.None? ==> d.status == Some(Draft)
  {
    // `x || default`: a present array or status is always truthy, and a
    // present empty string falls back to "", which is the same string
    match existing
    case None =>
      FormData(employeeId, Period(start, end), [], "", "", None, Some(Draft))
    case Some(ev) =>
      FormData(employeeId, Period(start, end),
               ev.metrics.GetOr([]),
               ev.comments.GetOr(""),
               ev.recommendations.GetOr(""),
               ev.overallScore,
               Some(ev.status.GetOr(Draft)))
  }

  /** The component as first rendered. */
  function Open(employeeId: string, existing: Option<UpdateEvaluation>, start: Date, end: Date): (f: Form)
    ensures f.employeeId == employeeId && f.existing == existing
    ensures f.evaluation == InitialData(employeeId, existing, start, end)
    ensures f.changed == {} && f.score == None && f.error == None && !f.isLoading
  {
    Form(employeeId, existing, InitialData(employeeId, existing, start, end), {}, None, None, false)
  }

  /** A re-render with a new `existingEvaluation` prop (the caller's lookup
      resolved or was refetched): the prop changes, but the form record is
      not re-initialised, since it came from the first render only. */
  function ReceiveEvaluation(f: Form, existing: Option<UpdateEvaluation>): (r: Form)
    ensures r.existing == existing
    ensures r.(existing := f.existing) == f
  {
    f.(existing := existing)
  }

  /** `handleChange(key, value)`: sets exactly that field, clears the
      error, and in update mode marks the key dirty. */
  function HandleChange(f: Form, e: Edit): (r: Form)
    ensures Current(r.evaluation, FieldOf(e)) == e
    ensures forall k :: k != FieldOf(e) ==> Current(r.evaluation, k) == Current(f.evaluation, k)
    ensures f.existing.Some? ==> r.changed == f.changed + {FieldOf(e)}
    ensures f.existing.None? ==> r.changed == f.changed
    ensures r.error == None
    ensures r.(evaluation := f.evaluation, changed := f.changed, error := f.error) == f
  {
    f.(evaluation := Assign(f.evaluation, e),
       error := None,
       changed := if f.existing.Some? then f.changed + {FieldOf(e)} else f.changed)
  }

  /** `setScore(n)` from the score input: only the separate score state
      changes; no field is marked dirty. */
  function SetScore(f: Form, n: real): (r: Form)
    ensures r.score == Some(n)
    ensures r.(score := f.score) == f
  {
    f.(score := Some(n))
  }

  /** Applies `handleChange` for each edit in turn. */
  function ApplyEdits(f: Form, edits: seq<Edit>): Form
    decreases |edits|
  {
    if edits == [] then f else ApplyEdits(HandleChange(f, edits[0]), edits[1..])
  }

  /** The keys a sequence of edits touches. */
  function EditedFields(edits: seq<Edit>): set<Field>
  {
    set i | 0 <= i < |edits| :: FieldOf(edits[i])
  }

  /** The dirty set only grows: in update mode it gains exactly the keys
      edited, in create mode it never changes; nothing is ever removed. */
  lemma {:induction false} DirtySetGrowth(f: Form, edits: seq<Edit>)
    ensures f.changed <= ApplyEdits(f, edits).changed
    ensures f.existing.Some? ==> ApplyEdits(f, edits).changed == f.changed + EditedFields(edits)
    ensures f.existing.None? ==> ApplyEdits(f, edits).changed == f.changed
    ensures ApplyEdits(f, edits).existing == f.existing
    decreases |edits|
  {
    if edits != [] {
      var g := HandleChange(f, edits[0]);
      DirtySetGrowth(g, edits[1..]);
      assert EditedFields(edits) == {FieldOf(edits[0])} + EditedFields(edits[1..]) by {
        forall x | x in EditedFields(edits) ensures x in {FieldOf(edits[0])} + EditedFields(edits[1..]) {
          var i :| 0 <= i < |edits| && FieldOf(edits[i]) == x;
          if i > 0 { assert FieldOf(edits[1..][i - 1]) == x; }
        }
        forall x | x in EditedFields(edits[1..]) ensures x in EditedFields(edits) {
          var i :| 0 <= i < |edits[1..]| && FieldOf(edits[1..][i]) == x;
          assert FieldOf(edits[i + 1]) == x;
        }
      }
    }
  }

  /** While the prop stays absent no sequence of edits makes any field
      dirty. */
  lemma CreateModeStaysClean(employeeId: string, start: Date, end: Date, edits: seq<Edit>)
    ensures ApplyEdits(Open(employeeId, None, start, end), edits).changed == {}
  {
    DirtySetGrowth(Open(employeeId, None, start, end), edits);
  }

  // ----- Payloads -----

  /** `prepareCreatePayload`: the full record, without score or status. */
  function PrepareCreatePayload(f: Form): (p: CreateEvaluation)
    ensures p.employeeId == f.evaluation.employeeId
    ensures p.period == f.evaluation.period
    ensures p.metrics == f.evaluation.metrics
    ensures p.comments == Some(f.evaluation.comments)
    ensures p.recommendations == Some(f.evaluation.recommendations)
  {
    CreateEvaluation(f.evaluation.employeeId, f.evaluation.period, f.evaluation.metrics,
                     Some(f.evaluation.comments), Some(f.evaluation.recommendations))
  }

  /** The keys a partial update carries. */
  function PatchKeys(u: UpdateEvaluation): (ks: set<Field>)
    ensures ks <= {OverallScoreField, MetricsField, StatusField, CommentsField, RecommendationsField}
  {
    (if u.overallScore.Some? then {OverallScoreField} else {})
    + (if u.metrics.Some? then {MetricsField} else {})
    + (if u.status.Some? then {StatusField} else {})
    + (if u.comments.Some? then {CommentsField} else {})
    + (if u.recommendations.Some? then {RecommendationsField} else {})
  }

  /** `prepareUpdatePayload`: a patch holding only dirty keys. Comments,
      recommendations, metrics and status are present exactly when dirty,
      with the form's current value (a status set to `undefined` is dropped
      by `JSON.stringify`); the overall score, when dirty, is taken from the
      separate score state, not from the form record. */
  function PrepareUpdatePayload(f: Form): (p: UpdateEvaluation)
    ensures PatchKeys(p) <= f.changed
    ensures CommentsField in PatchKeys(p) <==> CommentsField in f.changed
    ensures RecommendationsField in PatchKeys(p) <==> RecommendationsField in f.changed
    ensures MetricsField in PatchKeys(p) <==> MetricsField in f.changed
    ensures StatusField in PatchKeys(p) <==> StatusField in f.changed && f.evaluation.status.Some?
    ensures p.comments.Some? ==> p.comments.value == f.evaluation.comments
    ensures p.recommendations.Some? ==> p.recommendations.value == f.evaluation.recommendations
    ensures p.metrics.Some? ==> p.metrics.value == f.evaluation.metrics
    ensures StatusField in f.changed ==> p.status == f.evaluation.status
    ensures OverallScoreField in f.changed ==> p.overallScore == f.score
    ensures OverallScoreField !in f.changed ==> p.overallScore == None
  {
    UpdateEvaluation(
      if OverallScoreField in f.changed then f.score else None,
      if MetricsField in f.changed then Some(f.evaluation.metrics) else None,
      if StatusField in f.changed then f.evaluation.status else None,
      if CommentsField in f.changed then Some(f.evaluation.comments) else None,
      if RecommendationsField in f.changed then Some(f.evaluation.recommendations) else None)
  }

  /** Nothing dirty, nothing sent. */
  lemma CleanFormSendsEmptyPatch(f: Form)
    requires f.changed == {}
    ensures PrepareUpdatePayload(f) == UpdateEvaluation(None, None, None, None, None)
  {
  }

  /** Editing only the comments of an existing evaluation sends a patch
      whose one key is the new comments. */
  lemma CommentsOnlyPatch(employeeId: string, ev: UpdateEvaluation, start: Date, end: Date, text: string)
    ensures PrepareUpdatePayload(HandleChange(Open(employeeId, Some(ev), start, end), CommentsTo(text)))
            == UpdateEvaluation(None, None, None, Some(text), None)
  {
  }

  // ----- What the rendered inputs can do -----

  /** The inputs the form renders: the score box calls `setScore`, the two
      text boxes call `handleChange`. */
  datatype InputEvent = ScoreTyped(n: real) | CommentsTyped(text: string) | RecommendationsTyped(text: string)

  function OnInput(f: Form, ev: InputEvent): Form
  {
    match ev
    case ScoreTyped(n) => SetScore(f, n)
    case CommentsTyped(t) => HandleChange(f, CommentsTo(t))
    case RecommendationsTyped(t) => HandleChange(f, RecommendationsTo(t))
  }

  function Replay(f: Form, evs: seq<InputEvent>): Form
    decreases |evs|
  {
    if evs == [] then f else Replay(OnInput(f, evs[0]), evs[1..])
  }

  /** Through the rendered inputs only comments and recommendations ever
      become dirty; in particular the overall score never does. */
  lemma {:induction false} InputsDirtyOnlyText(f: Form, evs: seq<InputEvent>)
    requires f.changed <= {CommentsField, RecommendationsField}
    ensures Replay(f, evs).changed <= {CommentsField, RecommendationsField}
    ensures Replay(f, evs).existing == f.existing
    decreases |evs|
  {
    if evs != [] {
      InputsDirtyOnlyText(OnInput(f, evs[0]), evs[1..]);
    }
  }

  /** Consequently a typed overall score never reaches an update request:
      the patch built after any input carries no overall score. */
  lemma TypedScoreNeverPatched(employeeId: string, ev: UpdateEvaluation, start: Date, end: Date, evs: seq<InputEvent>)
    ensures PrepareUpdatePayload(Replay(Open(employeeId, Some(ev), start, end), evs)).overallScore == None
  {
    InputsDirtyOnlyText(Open(employeeId, Some(ev), start, end), evs);
  }

  // ----- Submit -----

  datatype Payload = CreateBody(create: CreateEvaluation) | UpdateBody(update: UpdateEvaluation)

  /** The request `handleSubmit` issues. */
  datatype SubmitRequest = SubmitRequest(verb: Method, path: string, authorization: string, payload: Payload)

  /** The parsed response body; only its `error` property is read. */
  datatype SubmitBody = SubmitBody(error: Option<string>)

  /** Routing: an existing evaluation is patched at `/evaluations/{employeeId}`
      (the component's prop, not the form field) with the partial payload;
      otherwise the full payload is posted to `/evaluations`. */
  function RequestFor(f: Form, token: Option<string>): (q: SubmitRequest)
    ensures q.authorization == Authorization(token)
    ensures f.existing.Some? ==>
        q.verb == PATCH && q.path == "/evaluations/" + f.employeeId
        && q.payload == UpdateBody(PrepareUpdatePayload(f))
    ensures f.existing.None? ==>
        q.verb == POST && q.path == "/evaluations" && q.payload == CreateBody(PrepareCreatePayload(f))
  {
    if f.existing.Some? then
      SubmitRequest(PATCH, "/evaluations/" + f.employeeId, Authorization(token), UpdateBody(PrepareUpdatePayload(f)))
    else
      SubmitRequest(POST, "/evaluations", Authorization(token), CreateBody(PrepareCreatePayload(f)))
  }

  /** The method, the path and the payload kind always agree. */
  lemma RoutingConsistent(f: Form, token: Option<string>)
    ensures var q := RequestFor(f, token);
            (q.verb == PATCH <==> q.payload.UpdateBody?)
            && (q.verb == POST <==> q.path == "/evaluations")
  {
  }

  /** The result of one press of the submit button. */
  datatype SubmitOutcome = SubmitOutcome(request: SubmitRequest, form: Form, closed: bool)

  /** The error a failed submission shows, if any. */
  function SubmitError(response: Response<SubmitBody>): Option<string>
  {
    match response
    case Unreachable(m) => Some(m)
    case Received(ok, body) =>
      if body.Err? then Some(body.message)
      else if !ok then Some(OrElse(body.value.error, "Failed to submit evaluation"))
      else None
  }

  /** `handleSubmit`: send the routed request; on success call `onClose`,
      otherwise show the error and stay open. Loading is off afterwards
      either way, and the entered data is kept for a retry. */
  function HandleSubmit(f: Form, token: Option<string>, response: Response<SubmitBody>): (r: SubmitOutcome)
    ensures r.request == RequestFor(f, token)
    ensures !r.form.isLoading
    ensures r.closed <==> response.Received? && response.ok && response.body.Ok?
    ensures r.closed ==> r.form.error == None
    ensures response.Received? && !response.ok && response.body.Ok? ==>
        r.form.error == Some(OrElse(response.body.value.error, "Failed to submit evaluation"))
    ensures response.Received? && response.body.Err? ==> r.form.error == Some(response.body.message)
    ensures response.Unreachable? ==> r.form.error == Some(response.message)
    ensures r.form.(error := f.error, isLoading := f.isLoading) == f
  {
    var request := RequestFor(f, token);
    var error := SubmitError(response);
    SubmitOutcome(request, f.(error := error, isLoading := false), error.None?)
  }

  /** A server that answers 404 to the evaluation lookup leaves the form in
      create mode, so submitting posts the full payload. */
  lemma NotFoundMeansCreate(employeeId: string, start: Date, end: Date, token: Option<string>, response: Response<SubmitBody>)
    ensures var f := Open(employeeId, None, start, end);
            var q := HandleSubmit(f, token, response).request;
            q.verb == POST && q.path == "/evaluations"
            && q.payload == CreateBody(CreateEvaluation(employeeId, Period(start, end), [], Some(""), Some("")))
  {
  }

  /** A form opened before the caller's lookup resolved starts from the
      defaults; once the evaluation arrives as the prop, a comments edit is
      marked dirty and submitting patches just the comments. */
  lemma LateEvaluationPatches(employeeId: string, start: Date, end: Date, ev: UpdateEvaluation,
                              text: string, token: Option<string>)
    ensures var f := HandleChange(ReceiveEvaluation(Open(employeeId, None, start, end), Some(ev)), CommentsTo(text));
            f.evaluation.metrics == [] && f.evaluation.status == Some(Draft)
            && RequestFor(f, token).verb == PATCH
            && RequestFor(f, token).path == "/evaluations/" + employeeId
            && RequestFor(f, token).payload == UpdateBody(UpdateEvaluation(None, None, None, Some(text), None))
  {
  }
}
