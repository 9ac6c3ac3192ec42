/** The "write a question" screen's view model: the validity of the draft,
    and the submit pipeline that zips the text with the category, uploads
    the latest pair and turns the outcome into a success or a failure
    message. The relays are the fields of `CreateViewModel`; each input
    event is one method. */
module CreateViewModel {
  import opened Common
  import MyQuestionService

  /** The hint shown in the empty question field. */
  const Placeholder: string := "면접자 분들은 나에게 어떤 질문을 줄까요?"

  /** The one message of the success channel. */
  const SuccessMessage: string := "질문 작성이 완료되었어요!"

  /** The `isValid` output: the text is neither empty nor the placeholder,
      and a category has been chosen (-1 means none). */
  function IsValid(text: string, category: int): (valid: bool)
    ensures valid ==> |text| > 0 && text != Placeholder && category != -1
    ensures |text| > 0 && text != Placeholder && category != -1 ==> valid
  {
    |text| > 0 && text != Placeholder && category != -1
  }

  /** Neither the untouched field nor an emptied one is ever valid, and any
      real text with any real category is. */
  lemma IsValidCases(text: string, category: int)
    ensures !IsValid("", category) && !IsValid(Placeholder, category)
    ensures !IsValid(text, -1)
    ensures |text| > 0 && text != Placeholder && category != -1 ==> IsValid(text, category)
  {
  }

  /** The category list offered by the screen: twelve names, from "공통" to
      "연구개발(R&D)". */
  function Categories(): (names: seq<string>)
    ensures |names| == 12
    ensures names[0] == "공통" && names[11] == "연구개발(R&D)"
    ensures forall k :: 1 <= k <= 12 ==> CategoryTitle(k) == Some(names[k - 1])
  {
    CategoryNames
  }

  /** The localized description that reaches the failure channel: the
      rejection's own message, or the forwarded error's description. */
  function FailureText(f: UploadFailure<MyQuestionService.QuestionError>): (m: string)
    ensures f.Rejected? ==> m == MyQuestionService.ErrorDescription(f.reason)
    ensures f.Forwarded? ==> m == f.error.description
  {
    match f
    case Rejected(reason) => MyQuestionService.ErrorDescription(reason)
    case Forwarded(error) => error.description
  }

  /** A failure never shows the success message. */
  lemma FailureIsNotSuccess(f: UploadFailure<MyQuestionService.QuestionError>)
    requires f.Rejected?
    ensures FailureText(f) != SuccessMessage
  {
  }

  /** One zipped (text, category) pair; the category travels as its decimal
      string, as in `input.category.map { String($0) }`. */
  datatype Draft = Draft(question: string, category: string)

  /** One upload issued to the question service. */
  datatype Upload = Upload(categoryId: int, question: string)

  class CreateViewModel {
    /** The latest value of each input, for the `isValid` combineLatest. */
    var latestQuestion: Option<string>
    var latestCategory: Option<int>
    /** Every value the `isValid` output has emitted, oldest first. */
    var validity: seq<bool>

    /** The zip buffers: values of one input still waiting for a partner. */
    var pendingQuestions: seq<string>
    var pendingCategories: seq<int>
    /** The latest zipped pair, which a submit samples. */
    var draft: Option<Draft>
    ghost var draftCategory: int

    /** The upload whose answer `flatMapLatest` still listens to. */
    var inFlight: Option<Upload>
    /** Every upload issued so far, oldest first. */
    var uploads: seq<Upload>
    /** An error ends the subscription: later submits are ignored. */
    var terminated: bool

    /** The two message relays, as the sequences of messages they carried. */
    var successMessages: seq<string>
    var failMessages: seq<string>

    ghost predicate Valid()
      reads this
    {
      && (|pendingQuestions| == 0 || |pendingCategories| == 0)
      && (draft.Some? ==> draft.value.category == DecimalString(draftCategory))
      && (inFlight.Some? ==> |uploads| > 0 && inFlight.value == uploads[|uploads| - 1])
      && (terminated ==> inFlight.None?)
    }

    /** The view model after `transform`: nothing received, nothing sent. */
    constructor ()
      ensures Valid()
      ensures latestQuestion.None? && latestCategory.None? && validity == []
      ensures pendingQuestions == [] && pendingCategories == [] && draft.None?
      ensures inFlight.None? && uploads == [] && !terminated
      ensures successMessages == [] && failMessages == []
    {
      latestQuestion, latestCategory, validity := None, None, [];
      pendingQuestions, pendingCategories, draft := [], [], None;
      draftCategory := 0;
      inFlight, uploads, terminated := None, [], false;
      successMessages, failMessages := [], [];
    }

    /** The question text changed. */
    method QuestionChanged(text: string)
      requires Valid()
      modifies this`latestQuestion, this`validity, this`draft, this`draftCategory, this`pendingQuestions, this`pendingCategories
      ensures Valid()
      ensures latestQuestion == Some(text) && latestCategory == old(latestCategory)
      ensures validity == old(validity) +
                (if latestCategory.Some? then [IsValid(text, latestCategory.value)] else [])
      ensures old(|pendingCategories|) > 0 ==>
                && draft == Some(Draft(text, DecimalString(old(pendingCategories)[0])))
                && pendingCategories == old(pendingCategories)[1..]
                && pendingQuestions == old(pendingQuestions)
      ensures old(|pendingCategories|) == 0 ==>
                && pendingQuestions == old(pendingQuestions) + [text]
                && draft == old(draft) && pendingCategories == old(pendingCategories)
      ensures inFlight == old(inFlight) && uploads == old(uploads) && terminated == old(terminated)
      ensures successMessages == old(successMessages) && failMessages == old(failMessages)
    {
      latestQuestion := Some(text);
      if latestCategory.Some? {
        validity := validity + [IsValid(text, latestCategory.value)];
      }
      if |pendingCategories| > 0 {
        draft := Some(Draft(text, DecimalString(pendingCategories[0])));
        draftCategory := pendingCategories[0];
        pendingCategories := pendingCategories[1..];
      } else {
        pendingQuestions := pendingQuestions + [text];
      }
    }

    /** The selected category changed. */
    method CategoryChanged(category: int)
      requires Valid()
      modifies this`latestCategory, this`validity, this`draft, this`draftCategory, this`pendingQuestions, this`pendingCategories
      ensures Valid()
      ensures latestCategory == Some(category) && latestQuestion == old(latestQuestion)
      ensures validity == old(validity) +
                (if latestQuestion.Some? then [IsValid(latestQuestion.value, category)] else [])
      ensures old(|pendingQuestions|) > 0 ==>
                && draft == Some(Draft(old(pendingQuestions)[0], DecimalString(category)))
                && pendingQuestions == old(pendingQuestions)[1..]
                && pendingCategories == old(pendingCategories)
      ensures old(|pendingQuestions|) == 0 ==>
                && pendingCategories == old(pendingCategories) + [category]
                && draft == old(draft) && pendingQuestions == old(pendingQuestions)
      ensures inFlight == old(inFlight) && uploads == old(uploads) && terminated == old(terminated)
      ensures successMessages == old(successMessages) && failMessages == old(failMessages)
    {
      latestCategory := Some(category);
      if latestQuestion.Some? {
        validity := validity + [IsValid(latestQuestion.value, category)];
      }
      if |pendingQuestions| > 0 {
        draft := Some(Draft(pendingQuestions[0], DecimalString(category)));
        draftCategory := category;
        pendingQuestions := pendingQuestions[1..];
      } else {
        pendingCategories := pendingCategories + [category];
      }
    }

    /** The submit button: the latest zipped pair is uploaded, its category
        parsed back from its string (`Int(category)!`, which cannot fail).
        A new upload replaces the one still awaited. Nothing happens before
        the first pair or after an error ended the subscription. */
    method Submit()
      requires Valid()
      modifies this`uploads, this`inFlight
      ensures Valid()
      ensures !old(terminated) && old(draft).Some? ==>
                && uploads == old(uploads) + [Upload(old(draftCategory), old(draft).value.question)]
                && inFlight == Some(Upload(old(draftCategory), old(draft).value.question))
      ensures old(terminated) || old(draft).None? ==>
                uploads == old(uploads) && inFlight == old(inFlight)
      ensures latestQuestion == old(latestQuestion) && latestCategory == old(latestCategory)
      ensures validity == old(validity) && draft == old(draft)
      ensures pendingQuestions == old(pendingQuestions) && pendingCategories == old(pendingCategories)
      ensures terminated == old(terminated)
      ensures successMessages == old(successMessages) && failMessages == old(failMessages)
    {
      if !terminated && draft.Some? {
        DecimalRoundTrip(draftCategory);
        var categoryId := ParseInt(draft.value.category);
        var upload := Upload(categoryId.value, draft.value.question);
        uploads := uploads + [upload];
        inFlight := Some(upload);
      }
    }

    /** The service answered the upload still awaited: a success puts the
        success message on the success channel; a failure puts its
        description on the failure channel and ends the subscription. */
    method UploadResponded(r: Response)
      requires Valid() && inFlight.Some?
      modifies this`inFlight, this`successMessages, this`failMessages, this`terminated
      ensures Valid() && inFlight.None?
      ensures MyQuestionService.UploadQuestionListOutcome(r).Ok? ==>
                && successMessages == old(successMessages) + [SuccessMessage]
                && failMessages == old(failMessages) && !terminated
      ensures MyQuestionService.UploadQuestionListOutcome(r).Err? ==>
                && failMessages == old(failMessages) + [FailureText(MyQuestionService.UploadQuestionListOutcome(r).error)]
                && successMessages == old(successMessages) && terminated
      ensures latestQuestion == old(latestQuestion) && latestCategory == old(latestCategory)
      ensures validity == old(validity) && draft == old(draft) && uploads == old(uploads)
      ensures pendingQuestions == old(pendingQuestions) && pendingCategories == old(pendingCategories)
    {
      var outcome := MyQuestionService.UploadQuestionListOutcome(r);
      inFlight := None;
      if outcome.Ok? {
        successMessages := successMessages + [SuccessMessage];
      } else {
        failMessages := failMessages + [FailureText(outcome.error)];
        terminated := true;
      }
    }
  }
}
