/**
 * The request and verdict of the solution evaluator, shared by the AI tutor's
 * open-ended questions and the daily practice challenge. The evaluator itself is
 * an external service: callers receive it as a function.
 */
module SolutionEvaluation {

  datatype EvaluateInput = EvaluateInput(exerciseDescription: string, solution: string, userAnswer: string, technology: string)

  datatype Evaluation = Evaluation(isCorrect: bool, feedback: string, score: int)

}
