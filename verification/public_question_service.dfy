/** The REST adapter for public ("green room") questions
    (`/api/green-questions`): its endpoints, the body of a new question and
    the status classification of `uploadQuestionList`. */
module PublicQuestionService {
  import opened Common
  import PrivateQuestionService

  /** `baseURL`, for the server address `host`. */
  function BaseURL(host: string): (u: string)
    ensures |u| > |host| && u[..|host|] == host
    ensures u[|host|..] == "/api/green-questions"
    ensures u != PrivateQuestionService.BaseURL(host)
  {
    host + "/api/green-questions"
  }

  /** `fetchFilteredQuestion`: the base URL with a `categoryId` query. */
  function FilteredURL(host: string, categoryId: int): (u: string)
    ensures |u| > |BaseURL(host)| + 12 && u[..|BaseURL(host)|] == BaseURL(host)
    ensures u[|BaseURL(host)|..] == "?categoryId=" + DecimalString(categoryId)
  {
    BaseURL(host) + "?categoryId=" + DecimalString(categoryId)
  }

  /** Different categories are filtered through different URLs. */
  lemma FilteredURLInjective(host: string, i: int, j: int)
    ensures FilteredURL(host, i) == FilteredURL(host, j) ==> i == j
  {
    if FilteredURL(host, i) == FilteredURL(host, j) {
      var n := |BaseURL(host)|;
      assert ("?categoryId=" + DecimalString(i))[12..] == DecimalString(i);
      assert ("?categoryId=" + DecimalString(j))[12..] == DecimalString(j);
      assert FilteredURL(host, i)[n..] == FilteredURL(host, j)[n..];
      DecimalStringInjective(i, j);
    }
  }

  /** `fetchRecentPublicQuestions`. */
  function RecentURL(host: string): (u: string)
    ensures |u| > |BaseURL(host)| && u[..|BaseURL(host)|] == BaseURL(host)
    ensures u[|BaseURL(host)|..] == "/recent-questions"
  {
    BaseURL(host) + "/recent-questions"
  }

  /** `fetchPopularPublicQuestions`. */
  function PopularURL(host: string): (u: string)
    ensures |u| > |BaseURL(host)| && u[..|BaseURL(host)|] == BaseURL(host)
    ensures u[|BaseURL(host)|..] == "/popular-questions"
  {
    BaseURL(host) + "/popular-questions"
  }

  /** `fetchPublicQuestions(page:)`: the page argument is not used, the URL
      is the one of the questions the user created. */
  function CreatedQuestionsURL(host: string, page: int): (u: string)
    ensures |u| > |BaseURL(host)| && u[..|BaseURL(host)|] == BaseURL(host)
    ensures u[|BaseURL(host)|..] == "/create-questions"
  {
    BaseURL(host) + "/create-questions"
  }

  /** Every page requests the same URL. */
  lemma CreatedQuestionsIgnorePage(host: string, p: int, q: int)
    ensures CreatedQuestionsURL(host, p) == CreatedQuestionsURL(host, q)
  {
  }

  /** The recent, popular and created-question endpoints are three
      different URLs under the base URL. */
  lemma FixedEndpointsDistinct(host: string, page: int)
    ensures RecentURL(host) != PopularURL(host)
    ensures RecentURL(host) != CreatedQuestionsURL(host, page)
    ensures PopularURL(host) != CreatedQuestionsURL(host, page)
  {
    var n := |BaseURL(host)|;
    assert RecentURL(host)[n + 1] == 'r';
    assert PopularURL(host)[n + 1] == 'p';
    assert CreatedQuestionsURL(host, page)[n + 1] == 'c';
  }

  /** `uploadQuestionList`: POST to the base URL; the body carries the
      category, the text and the expiry exactly as given. */
  function UploadQuestionListRequest(host: string, categoryId: int, question: string, expiredAt: string): (req: Request)
    ensures req.verb == Post && req.url == BaseURL(host)
    ensures req.body.PublicQuestionBody?
    ensures req.body.categoryId == categoryId && req.body.question == question
    ensures req.body.expiredAt == expiredAt
  {
    Request(Post, BaseURL(host), PublicQuestionBody(categoryId, question, expiredAt))
  }

  /** What `uploadQuestionList` emits: 400 is "too long", 404 "invalid
      category", any other completed response `true`, and a transport
      failure is forwarded unchanged. */
  function UploadQuestionListOutcome(r: Response): (e: Result<bool, UploadFailure<PrivateQuestionService.QuestionError>>)
    ensures e == Err(Rejected(PrivateQuestionService.ExceedMaximumLength)) <==> r == Completed(400)
    ensures e == Err(Rejected(PrivateQuestionService.InvalidCategory)) <==> r == Completed(404)
    ensures e == Ok(true) <==> r.Completed? && r.status != 400 && r.status != 404
    ensures r.TransportFailure? ==> e == Err(Forwarded(r.error))
    ensures e != Ok(false)
  {
    ClassifyUpload(r, PrivateQuestionService.ExceedMaximumLength, PrivateQuestionService.InvalidCategory)
  }
}
