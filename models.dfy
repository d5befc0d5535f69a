/**
  The record types of `models.py`: the comparison request and response and
  the template request and output shapes, with their defaults.
 */
module Models {
  import opened Wrappers

  /** `CompareRequest`: the task description is optional and defaults to `None`. */
  datatype CompareRequest = CompareRequest(
    originalPrompt: string,
    rewrittenPrompt: string,
    taskDescription: Option<string> := None)

  /** `Criterion`: a name and two integer scores, with no range constraint. */
  datatype Criterion = Criterion(name: string, scoreOriginal: int, scoreRewrite: int)

  /** `CompareResponse`: both answers, the criteria and the two totals. */
  datatype CompareResponse = CompareResponse(
    answerOriginal: string,
    answerRewrite: string,
    criteria: seq<Criterion>,
    totalOriginal: int,
    totalRewrite: int)

  /** `TemplateRequest`: `count` defaults to 5. */
  datatype TemplateRequest = TemplateRequest(industry: string, count: int := 5)

  /** `TemplateOut`: exactly a topic and a user prompt. */
  datatype TemplateOut = TemplateOut(topic: string, userPrompt: string)
}
