/** The second adapter for public questions: fixed URLs for the recent and
    popular lists, and an upload that in fact posts to the private question
    endpoint and drops its date argument. */
module GreenRoomQuestionService {
  import opened Common
  import PrivateQuestionService
  import PublicQuestionService

  /** A point in time, as passed to `uploadQuestionList`. */
  type Date = int

  /** `fetchRecentPublicQuestions`. */
  function RecentURL(host: string): (u: string)
    ensures u == PublicQuestionService.RecentURL(host)
  {
    host + "/api/green-questions/recent-questions"
  }

  /** `fetchPopularPublicQuestions`. */
  function PopularURL(host: string): (u: string)
    ensures u == PublicQuestionService.PopularURL(host)
  {
    host + "/api/green-questions/popular-questions"
  }

  /** `uploadQuestionList(categoryId:question:date:)`: POST of the category
      and text to `/api/my-questions`; the date is not sent. */
  function UploadQuestionListRequest(host: string, categoryId: int, question: string, date: Date): (req: Request)
    ensures req == PrivateQuestionService.UploadQuestionRequest(host, categoryId, question)
  {
    Request(Post, host + "/api/my-questions", QuestionBody(categoryId, question))
  }

  /** The request does not depend on the date. */
  lemma DateIsDropped(host: string, categoryId: int, question: string, d1: Date, d2: Date)
    ensures UploadQuestionListRequest(host, categoryId, question, d1)
         == UploadQuestionListRequest(host, categoryId, question, d2)
  {
  }

  /** The upload does not reach the public question endpoint. */
  lemma UploadIsNotPublic(host: string, categoryId: int, question: string, date: Date)
    ensures UploadQuestionListRequest(host, categoryId, question, date).url != PublicQuestionService.BaseURL(host)
  {
    var u := UploadQuestionListRequest(host, categoryId, question, date).url;
    assert u[|host| + 5] == 'm';
    assert PublicQuestionService.BaseURL(host)[|host| + 5] == 'g';
  }

  /** What `uploadQuestionList` emits: 400 is "too long", 404 "invalid
      category", any other completed response `true`, and a transport
      failure is forwarded unchanged. */
  function UploadQuestionListOutcome(r: Response): (e: Result<bool, UploadFailure<PrivateQuestionService.QuestionError>>)
    ensures e == Err(Rejected(PrivateQuestionService.ExceedMaximumLength)) <==> r == Completed(400)
    ensures e == Err(Rejected(PrivateQuestionService.InvalidCategory)) <==> r == Completed(404)
    ensures e == Ok(true) <==> r.Completed? && r.status != 400 && r.status != 404
    ensures r.TransportFailure? ==> e == Err(Forwarded(r.error))
    ensures e != Ok(false)
  {
    ClassifyUpload(r, PrivateQuestionService.ExceedMaximumLength, PrivateQuestionService.InvalidCategory)
  }
}
