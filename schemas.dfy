/** The record shapes exchanged by the two interview operations
    (backend/schemas.py). Validation by the schema library is not modelled. */
module Schemas {

  import opened Wrappers

  /** A generated interview question; `context` is optional. */
  datatype InterviewQuestion = InterviewQuestion(
    question: string,
    context: Option<string>,
    expectedKeyPoints: seq<string>)

  /** The grade of one answer. The schema itself puts no bound on `score`. */
  datatype EvaluationResult = EvaluationResult(
    score: int,
    feedback: string,
    modelAnswer: string,
    missingKeyPoints: seq<string>,
    tips: seq<string>)
}
