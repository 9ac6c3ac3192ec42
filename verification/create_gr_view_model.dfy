/** The "write a green room question" screen's view model: the same
    validity rule and submit pipeline as the private question screen, plus
    the relays holding the question's expiry and its category section. */
module CreateGRViewModel {
  import opened Common
  import MyQuestionService
  import opened CreateViewModel

  /** The section model of the category picker. */
  datatype CreateSection = CreateSection(items: seq<string>)

  /** `categories`: one section holding the twelve category names in the
      same order as the private question screen. */
  function CategorySections(): (sections: seq<CreateSection>)
    ensures |sections| == 1
    ensures sections[0].items == Categories()
  {
    [CreateSection(CategoryNames)]
  }

  class CreateGRViewModel {
    /** The latest value of each input, for the `isValid` combineLatest. */
    var latestQuestion: Option<string>
    var latestCategory: Option<int>
    /** Every value the `isValid` output has emitted, oldest first. */
    var validity: seq<bool>

    /** The zip buffers: values of one input still waiting for a partner. */
    var pendingQuestions: seq<string>
    var pendingCategories: seq<int>
    /** The latest zipped pair, which a submit samples. */
    var draft: Option<Draft>
    ghost var draftCategory: int

    /** The upload whose answer `flatMapLatest` still listens to. */
    var inFlight: Option<Upload>
    /** Every upload issued so far, oldest first. */
    var uploads: seq<Upload>
    /** An error ends the subscription: later submits are ignored. */
    var terminated: bool

    /** The two message relays, as the sequences of messages they carried. */
    var successMessages: seq<string>
    var failMessages: seq<string>

    /** The expiry chosen on screen and the one confirmed in the picker,
        in minutes; `transform` binds the confirmed one to `date`. */
    var date: int
    var confirmDate: int

    ghost predicate Valid()
      reads this
    {
      && (|pendingQuestions| == 0 || |pendingCategories| == 0)
      && (draft.Some? ==> draft.value.category == DecimalString(draftCategory))
      && (inFlight.Some? ==> |uploads| > 0 && inFlight.value == uploads[|uploads| - 1])
      && (terminated ==> inFlight.None?)
    }

    /** The view model after `transform`: nothing received, nothing sent,
        both dates at one day (60 * 24 minutes). */
    constructor ()
      ensures Valid()
      ensures latestQuestion.None? && latestCategory.None? && validity == []
      ensures pendingQuestions == [] && pendingCategories == [] && draft.None?
      ensures inFlight.None? && uploads == [] && !terminated
      ensures successMessages == [] && failMessages == []
      ensures date == 1440 && confirmDate == 1440
    {
      latestQuestion, latestCategory, validity := None, None, [];
      pendingQuestions, pendingCategories, draft := [], [], None;
      draftCategory := 0;
      inFlight, uploads, terminated := None, [], false;
      successMessages, failMessages := [], [];
      date, confirmDate := 60 * 24, 60 * 24;
    }

    /** A value pushed to `comfirmDate` is copied into `date`. */
    method ConfirmDateChanged(minutes: int)
      requires Valid()
      modifies this`date, this`confirmDate
      ensures Valid()
      ensures confirmDate == minutes && date == minutes
    {
      confirmDate := minutes;
      date := minutes;
    }

    /** `date` is a public relay: its owner may also write it directly,
        which leaves `comfirmDate` alone until the next confirmation. */
    method DateChanged(minutes: int)
      requires Valid()
      modifies this`date
      ensures Valid()
      ensures date == minutes && confirmDate == old(confirmDate)
    {
      date := minutes;
    }

    /** The question text changed. */
    method QuestionChanged(text: string)
      requires Valid()
      modifies this`latestQuestion, this`validity, this`draft, this`draftCategory, this`pendingQuestions, this`pendingCategories
      ensures Valid() && date == old(date) && confirmDate == old(confirmDate)
      ensures latestQuestion == Some(text) && latestCategory == old(latestCategory)
      ensures validity == old(validity) +
                (if latestCategory.Some? then [IsValid(text, latestCategory.value)] else [])
      ensures old(|pendingCategories|) > 0 ==>
                && draft == Some(Draft(text, DecimalString(old(pendingCategories)[0])))
                && pendingCategories == old(pendingCategories)[1..]
                && pendingQuestions == old(pendingQuestions)
      ensures old(|pendingCategories|) == 0 ==>
                && pendingQuestions == old(pendingQuestions) + [text]
                && draft == old(draft) && pendingCategories == old(pendingCategories)
      ensures inFlight == old(inFlight) && uploads == old(uploads) && terminated == old(terminated)
      ensures successMessages == old(successMessages) && failMessages == old(failMessages)
    {
      latestQuestion := Some(text);
      if latestCategory.Some? {
        validity := validity + [IsValid(text, latestCategory.value)];
      }
      if |pendingCategories| > 0 {
        draft := Some(Draft(text, DecimalString(pendingCategories[0])));
        draftCategory := pendingCategories[0];
        pendingCategories := pendingCategories[1..];
      } else {
        pendingQuestions := pendingQuestions + [text];
      }
    }

    /** The selected category changed. */
    method CategoryChanged(category: int)
      requires Valid()
      modifies this`latestCategory, this`validity, this`draft, this`draftCategory, this`pendingQuestions, this`pendingCategories
      ensures Valid() && date == old(date) && confirmDate == old(confirmDate)
      ensures latestCategory == Some(category) && latestQuestion == old(latestQuestion)
      ensures validity == old(validity) +
                (if latestQuestion.Some? then [IsValid(latestQuestion.value, category)] else [])
      ensures old(|pendingQuestions|) > 0 ==>
                && draft == Some(Draft(old(pendingQuestions)[0], DecimalString(category)))
                && pendingQuestions == old(pendingQuestions)[1..]
                && pendingCategories == old(pendingCategories)
      ensures old(|pendingQuestions|) == 0 ==>
                && pendingCategories == old(pendingCategories) + [category]
                && draft == old(draft) && pendingQuestions == old(pendingQuestions)
      ensures inFlight == old(inFlight) && uploads == old(uploads) && terminated == old(terminated)
      ensures successMessages == old(successMessages) && failMessages == old(failMessages)
    {
      latestCategory := Some(category);
      if latestQuestion.Some? {
        validity := validity + [IsValid(latestQuestion.value, category)];
      }
      if |pendingQuestions| > 0 {
        draft := Some(Draft(pendingQuestions[0], DecimalString(category)));
        draftCategory := category;
        pendingQuestions := pendingQuestions[1..];
      } else {
        pendingCategories := pendingCategories + [category];
      }
    }

    /** The submit button: the latest zipped pair is uploaded, its category
        parsed back from its string (`Int(category)!`, which cannot fail).
        A new upload replaces the one still awaited. Nothing happens before
        the first pair or after an error ended the subscription. */
    method Submit()
      requires Valid()
      modifies this`uploads, this`inFlight
      ensures Valid() && date == old(date) && confirmDate == old(confirmDate)
      ensures !old(terminated) && old(draft).Some? ==>
                && uploads == old(uploads) + [Upload(old(draftCategory), old(draft).value.question)]
                && inFlight == Some(Upload(old(draftCategory), old(draft).value.question))
      ensures old(terminated) || old(draft).None? ==>
                uploads == old(uploads) && inFlight == old(inFlight)
      ensures latestQuestion == old(latestQuestion) && latestCategory == old(latestCategory)
      ensures validity == old(validity) && draft == old(draft)
      ensures pendingQuestions == old(pendingQuestions) && pendingCategories == old(pendingCategories)
      ensures terminated == old(terminated)
      ensures successMessages == old(successMessages) && failMessages == old(failMessages)
    {
      if !terminated && draft.Some? {
        DecimalRoundTrip(draftCategory);
        var categoryId := ParseInt(draft.value.category);
        var upload := Upload(categoryId.value, draft.value.question);
        uploads := uploads + [upload];
        inFlight := Some(upload);
      }
    }

    /** The service answered the upload still awaited: a success puts the
        success message on the success channel; a failure puts its
        description on the failure channel and ends the subscription. */
    method UploadResponded(r: Response)
      requires Valid() && inFlight.Some?
      modifies this`inFlight, this`successMessages, this`failMessages, this`terminated
      ensures Valid() && date == old(date) && confirmDate == old(confirmDate) && inFlight.None?
      ensures MyQuestionService.UploadQuestionListOutcome(r).Ok? ==>
                && successMessages == old(successMessages) + [SuccessMessage]
                && failMessages == old(failMessages) && !terminated
      ensures MyQuestionService.UploadQuestionListOutcome(r).Err? ==>
                && failMessages == old(failMessages) + [FailureText(MyQuestionService.UploadQuestionListOutcome(r).error)]
                && successMessages == old(successMessages) && terminated
      ensures latestQuestion == old(latestQuestion) && latestCategory == old(latestCategory)
      ensures validity == old(validity) && draft == old(draft) && uploads == old(uploads)
      ensures pendingQuestions == old(pendingQuestions) && pendingCategories == old(pendingCategories)
    {
      var outcome := MyQuestionService.UploadQuestionListOutcome(r);
      inFlight := None;
      if outcome.Ok? {
        successMessages := successMessages + [SuccessMessage];
      } else {
        failMessages := failMessages + [FailureText(outcome.error)];
        terminated := true;
      }
    }
  }
}
