/** The evaluation records exchanged with the API (`IMetric`,
    `ICreateEvaluation`, `IUpdateEvaluation`). Optional properties are
    `Option`s: `None` is a key the JSON object does not carry. */
module EvaluationTypes {
  import opened Wrappers

  /** A point in time, as milliseconds since the epoch. */
  type Date = int

  datatype Period = Period(start: Date, end: Date)

  datatype Metric = Metric(name: string, score: real)

  datatype EvaluationStatus = Draft | Submitted | Reviewed | Approved

  /** The body of a create request. */
  datatype CreateEvaluation = CreateEvaluation(
    employeeId: string,
    period: Period,
    metrics: seq<Metric>,
    comments: Option<string>,
    recommendations: Option<string>)

  /** An existing evaluation as the form receives it, and the body of a
      partial update request. */
  datatype UpdateEvaluation = UpdateEvaluation(
    overallScore: Option<real>,
    metrics: Option<seq<Metric>>,
    status: Option<EvaluationStatus>,
    comments: Option<string>,
    recommendations: Option<string>)
}
