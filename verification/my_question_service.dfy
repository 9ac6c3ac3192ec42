/** The older adapter for the user's own questions: its two-case error
    type, the status classification of `uploadQuestionList` and the result
    forwarding of `fetchMyQuestionList`. */
module MyQuestionService {
  import opened Common
  import PrivateQuestionService

  /** The two-case error of this adapter (a separate declaration from the
      four-case one of the private question adapter). */
  datatype QuestionError = ExceedMaximumLength | InvalidCategory

  /** `errorDescription`: one fixed message per case. */
  function ErrorDescription(e: QuestionError): (m: string)
    ensures e == ExceedMaximumLength ==> m == "질문의 길이는 50자 이하여야 합니다."
    ensures e == InvalidCategory ==> m == "지원하는 카테고리가 아닙니다"
  {
    match e
    case ExceedMaximumLength => "질문의 길이는 50자 이하여야 합니다."
    case InvalidCategory => "지원하는 카테고리가 아닙니다"
  }

  /** The two cases this adapter shares with the four-case error of the
      private question adapter carry the same messages there. */
  function AsPrivateError(e: QuestionError): (p: PrivateQuestionService.QuestionError)
    ensures PrivateQuestionService.ErrorDescription(p) == ErrorDescription(e)
  {
    match e
    case ExceedMaximumLength => PrivateQuestionService.ExceedMaximumLength
    case InvalidCategory => PrivateQuestionService.InvalidCategory
  }

  /** `https://…/api/my-questions`, for the server address `host`. */
  function MyQuestionsURL(host: string): (u: string)
    ensures u == PrivateQuestionService.BaseURL(host)
  {
    host + "/api/my-questions"
  }

  /** `uploadQuestionList`: POST of the category and text. */
  function UploadQuestionListRequest(host: string, categoryId: int, question: string): (req: Request)
    ensures req == PrivateQuestionService.UploadQuestionRequest(host, categoryId, question)
  {
    Request(Post, MyQuestionsURL(host), QuestionBody(categoryId, question))
  }

  /** What `uploadQuestionList` emits: 400 is "too long", 404 "invalid
      category", any other completed response `true`, a transport failure
      is forwarded. */
  function UploadQuestionListOutcome(r: Response): (e: Result<bool, UploadFailure<QuestionError>>)
    ensures e == Err(Rejected(ExceedMaximumLength)) <==> r == Completed(400)
    ensures e == Err(Rejected(InvalidCategory)) <==> r == Completed(404)
    ensures e == Ok(true) <==> r.Completed? && r.status != 400 && r.status != 404
    ensures r.TransportFailure? ==> e == Err(Forwarded(r.error))
    ensures e != Ok(false)
  {
    ClassifyUpload(r, ExceedMaximumLength, InvalidCategory)
  }

  /** This adapter and the private question adapter classify every response
      alike: the same successes, the same forwarded errors, and the same
      rejections up to the embedding of the two-case error. */
  lemma AgreesWithPrivateAdapter(r: Response)
    ensures UploadQuestionListOutcome(r).Ok? == PrivateQuestionService.UploadQuestionOutcome(r).Ok?
    ensures UploadQuestionListOutcome(r).Err? && UploadQuestionListOutcome(r).error.Rejected? ==>
              PrivateQuestionService.UploadQuestionOutcome(r)
                == Err(Rejected(AsPrivateError(UploadQuestionListOutcome(r).error.reason)))
  {
  }

  /** `fetchMyQuestionList`: the completion handler is called exactly once
      per response, with `.success(list)` when the response validates and
      decodes and with `.failure(error)` otherwise. */
  function FetchMyQuestionListCompletions<Q>(r: Response, body: Option<seq<Q>>): (calls: seq<Result<seq<Q>, FetchFailure>>)
    ensures |calls| == 1
    ensures calls[0].Ok? <==> r.Completed? && 200 <= r.status < 300 && body.Some?
    ensures calls[0].Ok? ==> calls[0].value == body.value
    ensures r.TransportFailure? ==> calls[0] == Err(Transport(r.error))
  {
    [DecodeValidated(r, body)]
  }
}
