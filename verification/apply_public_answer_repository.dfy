/** Answering a public question: the repository picks one of two requests
    by whether keywords were given, and reduces the response to a flag. */
module ApplyPublicAnswerRepository {
  import opened Common

  /** The two `GreenRoomRequest` cases this repository can send. */
  datatype ApplyRequest =
    | ApplyAnswer(id: int, answer: string)
    | ApplyAnswerWithKeyword(id: int, answer: string, keywords: seq<string>)

  /** The keyword list a request carries (none for the plain case). */
  function KeywordsOf(req: ApplyRequest): seq<string>
  {
    match req
    case ApplyAnswer(_, _) => []
    case ApplyAnswerWithKeyword(_, _, keywords) => keywords
  }

  /** `applyAnswer(id:answer:keywords:)`: the plain request exactly when the
      keyword list is empty; either way with the same id and answer. */
  function ChooseRequest(id: int, answer: string, keywords: seq<string>): (req: ApplyRequest)
    ensures req.ApplyAnswer? <==> |keywords| == 0
    ensures req.id == id && req.answer == answer
  {
    if |keywords| == 0 then ApplyAnswer(id, answer)
    else ApplyAnswerWithKeyword(id, answer, keywords)
  }

  /** Whichever request is chosen, it carries exactly the given keywords:
      none are lost and none are added. */
  lemma ChooseRequestKeepsKeywords(id: int, answer: string, keywords: seq<string>)
    ensures KeywordsOf(ChooseRequest(id, answer, keywords)) == keywords
  {
  }

  /** `.map { _ in true }.catchAndReturn(false)`: any response is `true`, any
      error `false`; the result stream itself never fails. */
  function ApplyOutcome<T>(response: Result<T, TransportError>): (ok: bool)
    ensures ok <==> response.Ok?
  {
    response.Ok?
  }
}
