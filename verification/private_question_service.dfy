/** The REST adapter for the user's private questions
    (`/api/my-questions`): the error type it raises, the requests it builds
    and how it turns each response into what its stream or completion
    receives. The network call itself is not modelled. */
module PrivateQuestionService {
  import opened Common

  /** The four-case error of this adapter. */
  datatype QuestionError = ExceedMaximumLength | InvalidCategory | NotAuthorization | UnknownError

  /** `errorDescription`: the fixed user-facing message of each case. */
  function ErrorDescription(e: QuestionError): (m: string)
    ensures e == ExceedMaximumLength ==> m == "질문의 길이는 50자 이하여야 합니다."
    ensures e == InvalidCategory ==> m == "지원하는 카테고리가 아닙니다"
    ensures e == NotAuthorization ==> m == "해당 질문을 삭제할 수 없습니다"
    ensures e == UnknownError ==> m == "알 수 없는 에러가 발생했습니다."
  {
    match e
    case ExceedMaximumLength => "질문의 길이는 50자 이하여야 합니다."
    case InvalidCategory => "지원하는 카테고리가 아닙니다"
    case NotAuthorization => "해당 질문을 삭제할 수 없습니다"
    case UnknownError => "알 수 없는 에러가 발생했습니다."
  }

  /** No two cases share a message, so the message identifies the error. */
  lemma ErrorDescriptionInjective(e1: QuestionError, e2: QuestionError)
    ensures ErrorDescription(e1) == ErrorDescription(e2) ==> e1 == e2
  {
  }

  // ---------------------------------------------------------------------
  // Endpoints
  // ---------------------------------------------------------------------

  /** `baseURL`, for the server address `host`. */
  function BaseURL(host: string): string
  {
    host + "/api/my-questions"
  }

  /** `baseURL + "/\(id)"`: fetching, updating and deleting one question. */
  function ItemURL(host: string, id: int): (u: string)
    ensures |u| > |BaseURL(host)| && u[..|BaseURL(host)|] == BaseURL(host)
    ensures u[|BaseURL(host)|..] == "/" + DecimalString(id)
  {
    BaseURL(host) + "/" + DecimalString(id)
  }

  /** `baseURL + "/answer/\(id)"`: the answer and keywords of one question. */
  function AnswerURL(host: string, id: int): (u: string)
    ensures |u| > |BaseURL(host)| && u[..|BaseURL(host)|] == BaseURL(host)
    ensures u[|BaseURL(host)|..] == "/answer/" + DecimalString(id)
  {
    BaseURL(host) + "/answer/" + DecimalString(id)
  }

  /** Different question ids address different questions. */
  lemma ItemURLInjective(host: string, i: int, j: int)
    ensures ItemURL(host, i) == ItemURL(host, j) ==> i == j
  {
    if ItemURL(host, i) == ItemURL(host, j) {
      var n := |BaseURL(host)|;
      assert ("/" + DecimalString(i))[1..] == DecimalString(i);
      assert ("/" + DecimalString(j))[1..] == DecimalString(j);
      assert ItemURL(host, i)[n..] == ItemURL(host, j)[n..];
      DecimalStringInjective(i, j);
    }
  }

  /** Different ids address different answers. */
  lemma AnswerURLInjective(host: string, i: int, j: int)
    ensures AnswerURL(host, i) == AnswerURL(host, j) ==> i == j
  {
    if AnswerURL(host, i) == AnswerURL(host, j) {
      var n := |BaseURL(host)|;
      assert ("/answer/" + DecimalString(i))[8..] == DecimalString(i);
      assert ("/answer/" + DecimalString(j))[8..] == DecimalString(j);
      assert AnswerURL(host, i)[n..] == AnswerURL(host, j)[n..];
      DecimalStringInjective(i, j);
    }
  }

  /** A question URL is never an answer URL, whatever the two ids. */
  lemma ItemAndAnswerURLsDiffer(host: string, i: int, j: int)
    ensures ItemURL(host, i) != AnswerURL(host, j)
  {
    var n := |BaseURL(host)|;
    var d := DecimalString(i);
    assert ItemURL(host, i)[n + 1] == d[0];
    assert AnswerURL(host, j)[n + 1] == 'a';
    assert d[0] == '-' || IsDigit(d[0]);
  }

  // ---------------------------------------------------------------------
  // Requests
  // ---------------------------------------------------------------------

  /** `uploadQuestion`: POST to the base URL with the category and text. */
  function UploadQuestionRequest(host: string, categoryId: int, question: string): (req: Request)
    ensures req.verb == Post && req.url == BaseURL(host)
    ensures req.body == QuestionBody(categoryId, question)
  {
    Request(Post, BaseURL(host), QuestionBody(categoryId, question))
  }

  /** `updateQuestion`: PUT to the question's own URL with the same body. */
  function UpdateQuestionRequest(host: string, id: int, categoryId: int, question: string): (req: Request)
    ensures req.verb == Put && req.url == ItemURL(host, id)
    ensures req.body == QuestionBody(categoryId, question)
  {
    Request(Put, ItemURL(host, id), QuestionBody(categoryId, question))
  }

  /** `fetchPrivateQuestion`: a GET of the question's own URL. */
  function FetchPrivateQuestionRequest(host: string, id: int): (req: Request)
    ensures req.verb == Get && req.url == ItemURL(host, id) && req.body == NoBody
  {
    Request(Get, ItemURL(host, id), NoBody)
  }

  /** `updateKeywords`: PUT of the keyword list to the answer URL. */
  function UpdateKeywordsRequest(host: string, id: int, keywords: seq<string>): (req: Request)
    ensures req.verb == Put && req.url == AnswerURL(host, id)
    ensures req.body == KeywordsBody(keywords)
  {
    Request(Put, AnswerURL(host, id), KeywordsBody(keywords))
  }

  /** `uploadKeywords`: no method is given, so the request goes out with
      Alamofire's default GET, carrying the keyword list. */
  function UploadKeywordsRequest(host: string, id: int, keywords: seq<string>): (req: Request)
    ensures req.verb == Get && req.url == AnswerURL(host, id)
    ensures req.body == KeywordsBody(keywords)
  {
    Request(Get, AnswerURL(host, id), KeywordsBody(keywords))
  }

  /** `uploadAnswer`: PUT of the answer text to the answer URL. */
  function UploadAnswerRequest(host: string, id: int, answer: string): (req: Request)
    ensures req.verb == Put && req.url == AnswerURL(host, id)
    ensures req.body == AnswerBody(answer)
  {
    Request(Put, AnswerURL(host, id), AnswerBody(answer))
  }

  /** `removeAnswer`: a DELETE of the question's own URL. */
  function RemoveAnswerRequest(host: string, id: int): (req: Request)
    ensures req.verb == Delete && req.url == ItemURL(host, id) && req.body == NoBody
  {
    Request(Delete, ItemURL(host, id), NoBody)
  }

  // ---------------------------------------------------------------------
  // Outcomes
  // ---------------------------------------------------------------------

  /** What `uploadQuestion` and `updateQuestion` emit for a response:
      400 is "too long", 404 "invalid category", any other completed
      response (a 5xx included) is `true`, and a transport failure is
      forwarded unchanged. */
  function UploadQuestionOutcome(r: Response): (e: Result<bool, UploadFailure<QuestionError>>)
    ensures e == Err(Rejected(ExceedMaximumLength)) <==> r == Completed(400)
    ensures e == Err(Rejected(InvalidCategory)) <==> r == Completed(404)
    ensures e == Ok(true) <==> r.Completed? && r.status != 400 && r.status != 404
    ensures r.TransportFailure? ==> e == Err(Forwarded(r.error))
    ensures e.Err? && e.error.Forwarded? ==> r.TransportFailure?
    ensures e != Ok(false)
    ensures e.Err? && e.error.Rejected? ==> e.error.reason in {ExceedMaximumLength, InvalidCategory}
  {
    ClassifyUpload(r, ExceedMaximumLength, InvalidCategory)
  }

  /** What `uploadAnswer`, `uploadKeywords` and `removeAnswer` emit, and what
      `updateKeywords` passes to its completion: these never fail, they
      report `true` for a 2xx response and `false` for anything else. */
  function FlagOutcome(r: Response): (ok: bool)
    ensures ok <==> r.Completed? && 200 <= r.status < 300
    ensures r.TransportFailure? ==> !ok
  {
    Validated(r)
  }

  /** The same rejected upload, sent to an answer endpoint instead, is
      reported as `false` rather than as an error: the two families of
      endpoints disagree on every 400 and 404. */
  lemma RejectionsBecomeFalse(r: Response)
    requires r == Completed(400) || r == Completed(404)
    ensures UploadQuestionOutcome(r).Err? && !FlagOutcome(r)
  {
  }

  /** A 5xx is a success for question uploads but a failure for the
      flag-reporting endpoints. */
  lemma ServerErrorCountsAsUploaded(status: int)
    requires 500 <= status < 600
    ensures UploadQuestionOutcome(Completed(status)) == Ok(true)
    ensures !FlagOutcome(Completed(status))
  {
  }

  /** `fetchPrivateQuestion`: the decoded answer record for a 2xx response
      whose body decodes, the failure otherwise. */
  function FetchPrivateQuestionOutcome<A>(r: Response, body: Option<A>): (res: Result<A, FetchFailure>)
    ensures res.Ok? <==> r.Completed? && 200 <= r.status < 300 && body.Some?
    ensures res.Ok? ==> res.value == body.value
  {
    DecodeValidated(r, body)
  }
}
