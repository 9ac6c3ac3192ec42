# GreenRoom client core, modelled in Dafny

GreenRoom is an iOS app for interview practice. Users write private
questions and answers, post public ("green room") questions, keep
keyword-practice groups and scrap other users' questions. This project
models the app's client-side logic:

- the REST adapters that build requests and turn HTTP responses into
  stream events;
- the view models that validate input and push messages to the screen;
- the screen controllers whose event handlers flip visibility flags,
  truncate text, page through results and keep selection lists.

Each Swift file of the core has its own Dafny module:

| Swift file | Dafny module | form |
|---|---|---|
| Services/GreenRoom/PrivateQuestionService.swift | `PrivateQuestionService` | functions |
| Services/GreenRoom/MyQuestionService.swift | `MyQuestionService` | functions |
| Services/GreenRoom/PublicQuestionService.swift | `PublicQuestionService` | functions |
| Services/GreenRoom/GreenRoomQuestionService.swift | `GreenRoomQuestionService` | functions |
| Data/Repository/Apply/DefaultApplyPublicAnswerRepository.swift | `ApplyPublicAnswerRepository` | functions |
| ViewModel/CreateViewModel.swift | `CreateViewModel` | class `CreateViewModel` |
| ViewModel/GreenRoom/CreateGRViewModel.swift | `CreateGRViewModel` | class `CreateGRViewModel` |
| Controller/Keyword/Group/KPGroupEditViewController.swift | `KPGroupEditViewController` | class `GroupEditScreen` |
| Controller/Green/Answer/PrivateAnswerViewController.swift | `PrivateAnswerViewController` | class `PrivateAnswerScreen`, stream functions |
| Controller/Keyword/Questions/KPFindQuestionViewController.swift | `KPFindQuestionViewController` | class `FindQuestionScreen` |
| ViewModel/GreenRoom/Answer/RegisterKeywordViewModel.swift | `RegisterKeywordViewModel` | class `KeywordRegistry` |
| Controller/Green/Scrap/ScrapedQuestionViewController.swift | `ScrapedQuestionViewController` | class `ScrapScreen` |
| ViewModel/GreenRoom/Detail/FileringViewModel.swift | `FilteringViewModel` | functions |
| ViewModel/GreenRoom/RecentPublicQuestionsViewModel.swift | `RecentPublicQuestionsViewModel` | functions |

`Common` holds what several files share:

- the HTTP response shape: `Completed(status)` for a response whose
  `result` is `.success`, `TransportFailure` for a `.failure` result;
- the 400/404 upload classification;
- Swift's `String(Int)` and failable `Int(String)` as `DecimalString` and `ParseInt`;
- comma joining and splitting;
- the twelve job categories.

Rx streams are modelled in one of two ways:

- Where the Swift code keeps state in relays or fields, each input event
  is a method. The class fields are the relays' values, or the sequence of
  values a relay has carried.
- Where a chain only maps values, it is a pure function from the sequence
  of inputs to the sequence of outputs.

Each class has a `Valid()` invariant that every event method preserves.

### Where the code departs from the documented design

The model follows the code in each case.

- **Create screens.** An upload error reaches `subscribe(onError:)` and
  ends the submit subscription. The documented design has a screen that
  stays usable after a failure. In the code, later submits do nothing; the
  model records this in the `terminated` field.
- **Private answer text.** `distinctUntilChanged` runs before the
  empty-text filter. So a text that was emptied and then retyped reaches
  the view model twice in a row (`RepeatAfterEmptiedEdit`).
- **Scrap screen.** `viewWillAppear` hides the delete button and shows the
  edit item without touching `editMode`. A screen that reappears in edit
  mode therefore shows the non-editing controls.
- **Question finder.** `beginPaging` sets `isPaging` before the guard on
  the current page. When there is no page yet, it returns with the flag
  set, and no scroll can start paging again (`Stuck()` in
  `FindQuestionScreen`). The same happens when the page fetch fails: only
  the `onNext` handler clears the flag (`PageFailed`).
- **Create screens, submit.** The submit button uploads the latest zipped
  question and category without looking at `isValid`. The view only greys
  the button out; nothing in the view model stops an invalid draft.
- **Two `QuestionError` enums.** PrivateQuestionService.swift:15 and
  MyQuestionService.swift:15 both declare a top-level `QuestionError`, with
  four and two cases. Which one the public and green room adapters name is
  therefore ambiguous. The model keeps the two apart and uses the
  four-case one for those adapters (`PrivateQuestionService.QuestionError`).
- **`uploadKeywords`.** The request names no HTTP method, so it goes out
  as Alamofire's default GET.

## Model

| member | source | states |
|---|---|---|
| Common.ClassifyUpload | GreenRoom/Services/GreenRoom/PrivateQuestionService.swift:59-70 | An upload emits `true` exactly when the response completed with a status other than 400 and 404. 400 is the too-long rejection and 404 the invalid-category rejection; a transport error is forwarded. |
| Common.DecodeValidated | GreenRoom/Services/GreenRoom/PrivateQuestionService.swift:125-133 | A validated, decoded fetch succeeds exactly for a 2xx response whose body decodes, and yields that body. A transport error is passed on. |
| Common.DigitsRoundTrip | GreenRoom/ViewModel/CreateViewModel.swift:47-49 | Reading back the decimal digits of a natural number gives the number. |
| Common.DecimalString | GreenRoom/ViewModel/CreateViewModel.swift:47 | `String(n)` is non-empty. It starts with `-` exactly for a negative `n`, and every other character is a digit. |
| Common.ParseInt | GreenRoom/ViewModel/CreateViewModel.swift:49 | `Int(s)` is non-nil exactly for an optional sign followed by at least one digit. A `-` gives a value of at most zero, and anything else a value of at least zero. |
| Common.DecimalRoundTrip | GreenRoom/ViewModel/CreateViewModel.swift:47-49 | `Int(String(n)) == n` for every `n`. The force-unwrap of the category therefore never fails, and the id reaches the upload unchanged. |
| Common.DecimalStringInjective | GreenRoom/Controller/Keyword/Group/KPGroupEditViewController.swift:129-136 | Different ids render as different strings. |
| Common.DecimalStringHasNoComma | GreenRoom/Controller/Keyword/Questions/KPFindQuestionViewController.swift:108-111 | A rendered id contains no comma, so the joined filter string can be split back. |
| Common.Join | GreenRoom/Controller/Keyword/Questions/KPFindQuestionViewController.swift:110 | `joined(separator:)`: empty for no parts. It starts with the first part, followed by the separator when there are more parts. |
| Common.Split | GreenRoom/Controller/Keyword/Questions/KPFindQuestionViewController.swift:108-111 | At least one piece, and no piece contains the separator. |
| Common.SplitJoin | GreenRoom/Controller/Keyword/Questions/KPFindQuestionViewController.swift:108-111 | Splitting a separator join of at least one separator-free part gives back the parts. |
| Common.CategoryTitle | GreenRoom/ViewModel/GreenRoom/Detail/FileringViewModel.swift:40 | `Category(rawValue:)?.title` has a title exactly for ids 1..12: the id-th category name. |
| Common.CategoryOf | GreenRoom/Controller/Keyword/Group/KPGroupEditViewController.swift:88 | `Category(rawValue:)` is present exactly for ids 1..12, and carries that id. |
| PrivateQuestionService.ErrorDescription | GreenRoom/Services/GreenRoom/PrivateQuestionService.swift:21-32 | Each of the four cases has its fixed message. |
| PrivateQuestionService.ErrorDescriptionInjective | GreenRoom/Services/GreenRoom/PrivateQuestionService.swift:21-32 | No two cases share a message. |
| PrivateQuestionService.ItemURL | GreenRoom/Services/GreenRoom/PrivateQuestionService.swift:77 | The URL is the base URL followed by `/` and the id in decimal. |
| PrivateQuestionService.AnswerURL | GreenRoom/Services/GreenRoom/PrivateQuestionService.swift:149 | The URL is the base URL followed by `/answer/` and the id in decimal. |
| PrivateQuestionService.ItemURLInjective | GreenRoom/Services/GreenRoom/PrivateQuestionService.swift:121 | Different question ids address different URLs. |
| PrivateQuestionService.AnswerURLInjective | GreenRoom/Services/GreenRoom/PrivateQuestionService.swift:188 | Different question ids address different answer URLs. |
| PrivateQuestionService.ItemAndAnswerURLsDiffer | GreenRoom/Services/GreenRoom/PrivateQuestionService.swift:208-210 | A question URL is never an answer URL, for any two ids. |
| PrivateQuestionService.UploadQuestionRequest | GreenRoom/Services/GreenRoom/PrivateQuestionService.swift:51-58 | A POST to the base URL carrying the category and the text. |
| PrivateQuestionService.UpdateQuestionRequest | GreenRoom/Services/GreenRoom/PrivateQuestionService.swift:76-82 | A PUT to the question's own URL carrying the category and the text. |
| PrivateQuestionService.FetchPrivateQuestionRequest | GreenRoom/Services/GreenRoom/PrivateQuestionService.swift:119-125 | A GET of the question's own URL, without a body. |
| PrivateQuestionService.UpdateKeywordsRequest | GreenRoom/Services/GreenRoom/PrivateQuestionService.swift:145-151 | A PUT of the keyword list to the answer URL. |
| PrivateQuestionService.UploadKeywordsRequest | GreenRoom/Services/GreenRoom/PrivateQuestionService.swift:163-170 | A GET (no method is given) of the answer URL carrying the keyword list. |
| PrivateQuestionService.UploadAnswerRequest | GreenRoom/Services/GreenRoom/PrivateQuestionService.swift:185-193 | A PUT of the answer text to the answer URL. |
| PrivateQuestionService.RemoveAnswerRequest | GreenRoom/Services/GreenRoom/PrivateQuestionService.swift:208-213 | A DELETE of the question's own URL. |
| PrivateQuestionService.UploadQuestionOutcome | GreenRoom/Services/GreenRoom/PrivateQuestionService.swift:57-73 | Too-long exactly for 400 and invalid-category exactly for 404. `true` exactly for every other completed response, 5xx included. A transport failure is forwarded. Never `false`. |
| PrivateQuestionService.FlagOutcome | GreenRoom/Services/GreenRoom/PrivateQuestionService.swift:193-202 | The answer and keyword endpoints report `true` exactly for a 2xx response. They never fail. |
| PrivateQuestionService.RejectionsBecomeFalse | GreenRoom/Services/GreenRoom/PrivateQuestionService.swift:172-178 | A 400 or 404 is an error for question uploads but plain `false` for the flag endpoints. |
| PrivateQuestionService.ServerErrorCountsAsUploaded | GreenRoom/Services/GreenRoom/PrivateQuestionService.swift:61-67 | A 5xx counts as uploaded for question uploads, and as a failure for the flag endpoints. |
| PrivateQuestionService.FetchPrivateQuestionOutcome | GreenRoom/Services/GreenRoom/PrivateQuestionService.swift:125-133 | The fetched answer record exactly for a 2xx response whose body decodes. |
| MyQuestionService.ErrorDescription | GreenRoom/Services/GreenRoom/MyQuestionService.swift:19-26 | Each of the two cases has its fixed message. |
| MyQuestionService.AsPrivateError | GreenRoom/Services/GreenRoom/MyQuestionService.swift:15-26 | Each case maps to the four-case error with the same message. |
| MyQuestionService.MyQuestionsURL | GreenRoom/Services/GreenRoom/MyQuestionService.swift:32 | The same URL as the private question adapter's base URL. |
| MyQuestionService.UploadQuestionListRequest | GreenRoom/Services/GreenRoom/MyQuestionService.swift:47-54 | A POST to `/api/my-questions` carrying the category and the text; the same request as the private question upload, under the body assumption in "Left out". |
| MyQuestionService.UploadQuestionListOutcome | GreenRoom/Services/GreenRoom/MyQuestionService.swift:53-67 | Too-long exactly for 400, invalid-category exactly for 404, `true` for every other completed response, transport errors forwarded. |
| MyQuestionService.AgreesWithPrivateAdapter | GreenRoom/Services/GreenRoom/MyQuestionService.swift:55-66 | Both adapters accept the same responses and reject the rest with the same messages. |
| MyQuestionService.FetchMyQuestionListCompletions | GreenRoom/Services/GreenRoom/MyQuestionService.swift:31-45 | The completion is called exactly once. It receives success exactly for a 2xx response whose body decodes, and the transport error otherwise. |
| PublicQuestionService.BaseURL | GreenRoom/Services/GreenRoom/PublicQuestionService.swift:14 | The server address followed by `/api/green-questions`. It is never the private questions' base URL. |
| PublicQuestionService.RecentURL | GreenRoom/Services/GreenRoom/PublicQuestionService.swift:40 | The base URL followed by `/recent-questions`. |
| PublicQuestionService.PopularURL | GreenRoom/Services/GreenRoom/PublicQuestionService.swift:61 | The base URL followed by `/popular-questions`. |
| PublicQuestionService.CreatedQuestionsURL | GreenRoom/Services/GreenRoom/PublicQuestionService.swift:109 | The base URL followed by `/create-questions`, whatever the page. |
| PublicQuestionService.FilteredURL | GreenRoom/Services/GreenRoom/PublicQuestionService.swift:17-19 | The URL is the base URL followed by `?categoryId=` and the id in decimal. |
| PublicQuestionService.FilteredURLInjective | GreenRoom/Services/GreenRoom/PublicQuestionService.swift:19 | Different categories are fetched from different URLs. |
| PublicQuestionService.CreatedQuestionsIgnorePage | GreenRoom/Services/GreenRoom/PublicQuestionService.swift:107-109 | Every page requests the same URL: the page argument is unused. |
| PublicQuestionService.FixedEndpointsDistinct | GreenRoom/Services/GreenRoom/PublicQuestionService.swift:39-109 | The recent, popular and created-question endpoints are three different URLs. |
| PublicQuestionService.UploadQuestionListRequest | GreenRoom/Services/GreenRoom/PublicQuestionService.swift:80-87 | A POST to the base URL whose body carries the category, the text and the expiry. |
| PublicQuestionService.UploadQuestionListOutcome | GreenRoom/Services/GreenRoom/PublicQuestionService.swift:87-100 | Too-long exactly for 400, invalid-category exactly for 404, `true` for every other completed response, transport errors forwarded. |
| GreenRoomQuestionService.RecentURL | GreenRoom/Services/GreenRoom/GreenRoomQuestionService.swift:31-32 | The same recent-questions URL as the public adapter. |
| GreenRoomQuestionService.PopularURL | GreenRoom/Services/GreenRoom/GreenRoomQuestionService.swift:51-52 | The same popular-questions URL as the public adapter. |
| GreenRoomQuestionService.UploadQuestionListRequest | GreenRoom/Services/GreenRoom/GreenRoomQuestionService.swift:71-78 | A POST to `/api/my-questions` carrying the category and the text; the same request as the private question upload, under the body assumption in "Left out". |
| GreenRoomQuestionService.DateIsDropped | GreenRoom/Services/GreenRoom/GreenRoomQuestionService.swift:71-75 | The request is the same for every date. |
| GreenRoomQuestionService.UploadIsNotPublic | GreenRoom/Services/GreenRoom/GreenRoomQuestionService.swift:73 | The upload does not go to the public question endpoint. |
| GreenRoomQuestionService.UploadQuestionListOutcome | GreenRoom/Services/GreenRoom/GreenRoomQuestionService.swift:77-93 | Too-long exactly for 400, invalid-category exactly for 404, `true` for every other completed response, transport errors forwarded. |
| ApplyPublicAnswerRepository.ChooseRequest | GreenRoom/Data/Repository/Apply/DefaultApplyPublicAnswerRepository.swift:19 | The plain request exactly when the keyword list is empty. Either way it carries the same id and answer. |
| ApplyPublicAnswerRepository.ChooseRequestKeepsKeywords | GreenRoom/Data/Repository/Apply/DefaultApplyPublicAnswerRepository.swift:19 | The chosen request carries exactly the given keywords. |
| ApplyPublicAnswerRepository.ApplyOutcome | GreenRoom/Data/Repository/Apply/DefaultApplyPublicAnswerRepository.swift:20-23 | `true` exactly for a response and `false` exactly for an error. |
| CreateViewModel.IsValid | GreenRoom/ViewModel/CreateViewModel.swift:56-58 | Valid exactly when the text is non-empty, is not the placeholder, and the category is not -1. |
| CreateViewModel.IsValidCases | GreenRoom/ViewModel/CreateViewModel.swift:57-58 | An empty or untouched field is never valid. Category -1 is never valid. Any other text with any other category is valid. |
| CreateViewModel.Categories | GreenRoom/ViewModel/CreateViewModel.swift:43 | Twelve names from "공통" to "연구개발(R&D)". The k-th is category k's title. |
| CreateViewModel.FailureText | GreenRoom/ViewModel/CreateViewModel.swift:52-53 | A rejection shows its own message; a forwarded error shows its description. |
| CreateViewModel.FailureIsNotSuccess | GreenRoom/ViewModel/CreateViewModel.swift:50-53 | A rejection's message is never the success message. |
| CreateViewModel.CreateViewModel.constructor | GreenRoom/ViewModel/CreateViewModel.swift:40-45 | Before any input: nothing buffered, nothing uploaded, no messages. |
| CreateViewModel.CreateViewModel.QuestionChanged | GreenRoom/ViewModel/CreateViewModel.swift:47-58 | Validity is re-emitted when a category is known. The text pairs with the oldest waiting category, or waits for one. Uploads and messages are unchanged. |
| CreateViewModel.CreateViewModel.CategoryChanged | GreenRoom/ViewModel/CreateViewModel.swift:47-58 | Validity is re-emitted when a text is known. The category pairs with the oldest waiting text, or waits for one. Uploads and messages are unchanged. |
| CreateViewModel.CreateViewModel.Submit | GreenRoom/ViewModel/CreateViewModel.swift:47-49 | Uploads the latest pair with its category id unchanged, and replaces any awaited upload. Does nothing before the first pair or after an error. |
| CreateViewModel.CreateViewModel.UploadResponded | GreenRoom/ViewModel/CreateViewModel.swift:50-54 | On success, exactly the success message is added to the success channel. On failure, its description goes to the failure channel and the subscription ends. |
| CreateGRViewModel.CategorySections | GreenRoom/ViewModel/GreenRoom/CreateGRViewModel.swift:40 | One section holding the same twelve names as the private question screen. |
| CreateGRViewModel.CreateGRViewModel.constructor | GreenRoom/ViewModel/GreenRoom/CreateGRViewModel.swift:37-38 | Both date relays start at one day (1440 minutes). Nothing is buffered or sent. |
| CreateGRViewModel.CreateGRViewModel.ConfirmDateChanged | GreenRoom/ViewModel/GreenRoom/CreateGRViewModel.swift:56 | A confirmed expiry is copied into `date`; after it the two relays are equal. |
| CreateGRViewModel.CreateGRViewModel.DateChanged | GreenRoom/ViewModel/GreenRoom/CreateGRViewModel.swift:37 | An owner's direct write to the public `date` relay changes only `date`, and `comfirmDate` keeps its value. |
| CreateGRViewModel.CreateGRViewModel.QuestionChanged | GreenRoom/ViewModel/GreenRoom/CreateGRViewModel.swift:44-54 | As on the private screen; the dates are unchanged. |
| CreateGRViewModel.CreateGRViewModel.CategoryChanged | GreenRoom/ViewModel/GreenRoom/CreateGRViewModel.swift:44-54 | As on the private screen; the dates are unchanged. |
| CreateGRViewModel.CreateGRViewModel.Submit | GreenRoom/ViewModel/GreenRoom/CreateGRViewModel.swift:44-46 | Uploads the latest pair with its category id unchanged, latest wins. Ignored before a pair or after an error. |
| CreateGRViewModel.CreateGRViewModel.UploadResponded | GreenRoom/ViewModel/GreenRoom/CreateGRViewModel.swift:47-51 | On success, the success message. On failure, its description on the failure channel, and the subscription ends. |
| KPGroupEditViewController.Truncated | GreenRoom/Controller/Keyword/Group/KPGroupEditViewController.swift:164-171 | The placeholder is kept. Any other text becomes its prefix of at most ten characters. |
| KPGroupEditViewController.TruncatedIdempotent | GreenRoom/Controller/Keyword/Group/KPGroupEditViewController.swift:164-171 | Truncation yields the placeholder only from the placeholder, and truncating twice is truncating once. |
| KPGroupEditViewController.OnBeginEditing | GreenRoom/Controller/Keyword/Group/KPGroupEditViewController.swift:113-118 | The field is cleared exactly when it shows the placeholder. |
| KPGroupEditViewController.OnEndEditing | GreenRoom/Controller/Keyword/Group/KPGroupEditViewController.swift:120-125 | The placeholder returns exactly into an empty field. |
| KPGroupEditViewController.EditWithoutTypingRoundTrip | GreenRoom/Controller/Keyword/Group/KPGroupEditViewController.swift:113-125 | Beginning and ending an edit without typing restores any non-empty text. |
| KPGroupEditViewController.CompleteHidden | GreenRoom/Controller/Keyword/Group/KPGroupEditViewController.swift:128-141 | The button is hidden exactly for an empty text, the placeholder, or category id -1. The `"-1"` string comparison is proved to single out -1. |
| KPGroupEditViewController.DecimalStringIsMinusOne | GreenRoom/Controller/Keyword/Group/KPGroupEditViewController.swift:129-136 | An id renders as "-1" exactly when it is -1. |
| KPGroupEditViewController.HiddenUnaffectedByTruncation | GreenRoom/Controller/Keyword/Group/KPGroupEditViewController.swift:128-171 | Truncation never changes the button's visibility. |
| KPGroupEditViewController.GroupEditScreen.Add | GreenRoom/Controller/Keyword/Group/KPGroupEditViewController.swift:47-49 | A new group starts with the placeholder, no group id, and the button hidden. |
| KPGroupEditViewController.GroupEditScreen.Edit | GreenRoom/Controller/Keyword/Group/KPGroupEditViewController.swift:51-56 | Editing seeds the group id, the category, and the truncated name. |
| KPGroupEditViewController.GroupEditScreen.SetText | GreenRoom/Controller/Keyword/Group/KPGroupEditViewController.swift:164-171 | Any text change leaves the field truncated and the button following the rule. |
| KPGroupEditViewController.GroupEditScreen.TextTyped | GreenRoom/Controller/Keyword/Group/KPGroupEditViewController.swift:164-171 | Typed text is kept as a prefix of at most ten characters. |
| KPGroupEditViewController.GroupEditScreen.DidBeginEditing | GreenRoom/Controller/Keyword/Group/KPGroupEditViewController.swift:113-118 | The placeholder swap on entry. |
| KPGroupEditViewController.GroupEditScreen.DidEndEditing | GreenRoom/Controller/Keyword/Group/KPGroupEditViewController.swift:120-125 | The placeholder swap on exit. |
| KPGroupEditViewController.GroupEditScreen.ItemSelected | GreenRoom/Controller/Keyword/Group/KPGroupEditViewController.swift:98-104 | Row `r` selects category `r + 1`. The button then depends only on the text. |
| KPGroupEditViewController.GroupEditScreen.ConfigureCell | GreenRoom/Controller/Keyword/Group/KPGroupEditViewController.swift:87-95 | Cell `i` shows category `i + 1` exactly for `i` in 0..11, and is selected exactly when that is the current category. |
| KPGroupEditViewController.GroupEditScreen.Complete | GreenRoom/Controller/Keyword/Group/KPGroupEditViewController.swift:143-162 | An edit exactly when there is a group id, an add otherwise. The name sent is non-empty, at most ten characters and not the placeholder, and the category is not -1. |
| PrivateAnswerViewController.RightButton | GreenRoom/Controller/Green/Answer/PrivateAnswerViewController.swift:25-27 | The done button exactly in edit mode, the delete button otherwise. |
| PrivateAnswerViewController.PlaceholderViewsHidden | GreenRoom/Controller/Green/Answer/PrivateAnswerViewController.swift:235-253 | The "no answer" views and the post button are hidden exactly when the mode is not unwritten. |
| PrivateAnswerViewController.ModeForFetched | GreenRoom/Controller/Green/Answer/PrivateAnswerViewController.swift:186-190 | Written with the answer exactly when there is one, unwritten otherwise, never edit. |
| PrivateAnswerViewController.PrivateAnswerScreen.constructor | GreenRoom/Controller/Green/Answer/PrivateAnswerViewController.swift:15 | Starts unwritten, with the placeholder views and the delete button shown. |
| PrivateAnswerViewController.PrivateAnswerScreen.SetMode | GreenRoom/Controller/Green/Answer/PrivateAnswerViewController.swift:15-28 | After each mode change the views and the bar button agree with the mode. A written answer is shown. |
| PrivateAnswerViewController.PrivateAnswerScreen.AnswerFetched | GreenRoom/Controller/Green/Answer/PrivateAnswerViewController.swift:180-192 | A fetched answer shows written mode with its text; no answer shows unwritten mode. Either way the delete button is shown. |
| PrivateAnswerViewController.PrivateAnswerScreen.PostTapped | GreenRoom/Controller/Green/Answer/PrivateAnswerViewController.swift:174-178 | Enters edit mode: placeholder views hidden, done button shown. |
| PrivateAnswerViewController.PrivateAnswerScreen.AnswerDidBeginEditing | GreenRoom/Controller/Green/Answer/PrivateAnswerViewController.swift:136-143 | The answer is cleared exactly when it shows the placeholder. |
| PrivateAnswerViewController.PrivateAnswerScreen.AnswerDidEndEditing | GreenRoom/Controller/Green/Answer/PrivateAnswerViewController.swift:145-152 | An empty answer shows the placeholder again. |
| PrivateAnswerViewController.DistinctUntilChanged | GreenRoom/Controller/Green/Answer/PrivateAnswerViewController.swift:157 | No longer than its input, and ends with the input's last element. |
| PrivateAnswerViewController.DropEmpty | GreenRoom/Controller/Green/Answer/PrivateAnswerViewController.swift:158 | Keeps no empty text. |
| PrivateAnswerViewController.AnswerTexts | GreenRoom/Controller/Green/Answer/PrivateAnswerViewController.swift:154-158 | The view model never receives an empty text. |
| PrivateAnswerViewController.DistinctUntilChangedHasNoRepeats | GreenRoom/Controller/Green/Answer/PrivateAnswerViewController.swift:157 | No two neighbours of the output are equal. |
| PrivateAnswerViewController.DistinctUntilChangedKeepsElements | GreenRoom/Controller/Green/Answer/PrivateAnswerViewController.swift:157 | Every output element is an input element. |
| PrivateAnswerViewController.DropEmptyKeepsNonEmpty | GreenRoom/Controller/Green/Answer/PrivateAnswerViewController.swift:158 | A stream without empty texts passes unchanged. |
| PrivateAnswerViewController.DropEmptyKeepsElements | GreenRoom/Controller/Green/Answer/PrivateAnswerViewController.swift:158 | Every output element is an input element. |
| PrivateAnswerViewController.AnswerTextsComeFromEdits | GreenRoom/Controller/Green/Answer/PrivateAnswerViewController.swift:154-158 | Every text the view model receives was the text at some end of editing, and is non-empty. |
| PrivateAnswerViewController.DistinctUntilChangedStep | GreenRoom/Controller/Green/Answer/PrivateAnswerViewController.swift:157 | A new text is kept exactly when it is the first or differs from the text before it. The output so far is unchanged. |
| PrivateAnswerViewController.DropEmptyStep | GreenRoom/Controller/Green/Answer/PrivateAnswerViewController.swift:158 | A new text is kept exactly when it is not empty. The output so far is unchanged. |
| PrivateAnswerViewController.AnswerTextsStep | GreenRoom/Controller/Green/Answer/PrivateAnswerViewController.swift:154-158 | At each end of editing, the view model receives the text exactly when it is not empty and differs from the text at the previous end of editing. |
| PrivateAnswerViewController.DropEmptyCount | GreenRoom/Controller/Green/Answer/PrivateAnswerViewController.swift:158 | The output holds as many texts as the input has non-empty ones: every non-empty text is kept. |
| PrivateAnswerViewController.DistinctUntilChangedCount | GreenRoom/Controller/Green/Answer/PrivateAnswerViewController.swift:157 | The output holds the first text plus one text per position where the text differs from the one before. |
| PrivateAnswerViewController.NoRepeatsWithoutEmptyEdits | GreenRoom/Controller/Green/Answer/PrivateAnswerViewController.swift:154-158 | Without emptied edits, the same text is never sent twice in a row. |
| PrivateAnswerViewController.RepeatAfterEmptiedEdit | GreenRoom/Controller/Green/Answer/PrivateAnswerViewController.swift:157-158 | Edits ending with "a", "", "a" send "a" twice in a row. |
| PrivateAnswerViewController.DeleteTriggers | GreenRoom/Controller/Green/Answer/PrivateAnswerViewController.swift:163 | One `true` per confirmed alert, and nothing else. |
| PrivateAnswerViewController.CancelsNeverDelete | GreenRoom/Utils/Extensions/View/UIViewController+.swift:40-55 | Cancelling every alert never triggers a delete. |
| KPFindQuestionViewController.IdStrings | GreenRoom/Controller/Keyword/Questions/KPFindQuestionViewController.swift:109 | One decimal string per selected id, in selection order. |
| KPFindQuestionViewController.JoinedIds | GreenRoom/Controller/Keyword/Questions/KPFindQuestionViewController.swift:108-111 | The comma join of the id strings is empty exactly for no ids, and otherwise splits back into them. |
| KPFindQuestionViewController.FilterString | GreenRoom/Controller/Keyword/Questions/KPFindQuestionViewController.swift:108-111 | The filter string is empty exactly when no category is selected. Otherwise, splitting it at the commas gives each id's decimal string, in selection order. |
| KPFindQuestionViewController.PastThreshold | GreenRoom/Controller/Keyword/Questions/KPFindQuestionViewController.swift:124 | The scroll passes the threshold exactly when the bottom of the visible frame lies strictly below the end of the content. |
| KPFindQuestionViewController.FilterStringRoundTrip | GreenRoom/Controller/Keyword/Questions/KPFindQuestionViewController.swift:108-111 | Splitting the filter string at the commas and parsing each piece gives the selected ids, in order. |
| KPFindQuestionViewController.FindQuestionScreen.constructor | GreenRoom/Controller/Keyword/Questions/KPFindQuestionViewController.swift:17-18 | Starts not paging, with no page and no request. |
| KPFindQuestionViewController.FindQuestionScreen.BeginPaging | GreenRoom/Controller/Keyword/Questions/KPFindQuestionViewController.swift:78-90 | Sets the flag. With a current page, requests the page after it with the current filter and search text; without one, requests nothing and the flag stays set. |
| KPFindQuestionViewController.FindQuestionScreen.DidScroll | GreenRoom/Controller/Keyword/Questions/KPFindQuestionViewController.swift:117-129 | Pages only past the threshold, with a next page, and while not paging. So no second request goes out while one is awaited, and a stuck screen stays stuck. |
| KPFindQuestionViewController.FindQuestionScreen.PageDelivered | GreenRoom/Controller/Keyword/Questions/KPFindQuestionViewController.swift:86-89 | The page replaces the reference and paging ends. |
| KPFindQuestionViewController.FindQuestionScreen.PageFailed | GreenRoom/Controller/Keyword/Questions/KPFindQuestionViewController.swift:85-89 | A failed page fetch leaves `isPaging` set with nothing awaited. The screen is stuck, and the reference and requests are unchanged. |
| KPFindQuestionViewController.FindQuestionScreen.CategoriesSelected | GreenRoom/Controller/Keyword/Questions/KPFindQuestionViewController.swift:108-111 | The filter becomes the comma join of the selected ids. |
| KPFindQuestionViewController.FindQuestionScreen.SearchTextChanged | GreenRoom/Controller/Keyword/Questions/KPFindQuestionViewController.swift:113-115 | The search text becomes the bar's text. |
| KPFindQuestionViewController.FindQuestionScreen.HasNextPageChanged | GreenRoom/Controller/Keyword/Questions/KPFindQuestionViewController.swift:125 | The next-page flag becomes the view model's value. |
| KPFindQuestionViewController.FindQuestionScreen.ReferenceChanged | GreenRoom/Controller/Keyword/Questions/KPFindQuestionViewController.swift:83 | The current page becomes the view model's page. |
| RegisterKeywordViewModel.SeedFetches | GreenRoom/ViewModel/GreenRoom/Answer/RegisterKeywordViewModel.swift:40-53 | No fetch for a public question. Otherwise one fetch of the own id: the private question from the repository, or the group question from the keyword-practice question service. |
| RegisterKeywordViewModel.KeywordRegistry.constructor | GreenRoom/ViewModel/GreenRoom/Answer/RegisterKeywordViewModel.swift:27-53 | The list starts empty, and the seed fetch of the answer type is issued. |
| RegisterKeywordViewModel.KeywordRegistry.KeywordsFetched | GreenRoom/ViewModel/GreenRoom/Answer/RegisterKeywordViewModel.swift:44-52 | The fetched keywords replace the whole list. |
| RegisterKeywordViewModel.KeywordRegistry.KeywordTyped | GreenRoom/ViewModel/GreenRoom/Answer/RegisterKeywordViewModel.swift:55 | Only a non-empty keyword becomes the latest. |
| RegisterKeywordViewModel.KeywordRegistry.Trigger | GreenRoom/ViewModel/GreenRoom/Answer/RegisterKeywordViewModel.swift:55-60 | Appends the latest non-empty keyword at the end, duplicates included, keeping the earlier keywords. Does nothing before one is typed. The invariant: the list is the last seed followed by non-empty appended keywords. |
| ScrapedQuestionViewController.RightItem | GreenRoom/Controller/Green/Scrap/ScrapedQuestionViewController.swift:24 | The cancel item exactly in edit mode. |
| ScrapedQuestionViewController.ScrapScreen.constructor | GreenRoom/Controller/Green/Scrap/ScrapedQuestionViewController.swift:20 | Starts outside edit mode, with nothing selected. |
| ScrapedQuestionViewController.ScrapScreen.SetEditMode | GreenRoom/Controller/Green/Scrap/ScrapedQuestionViewController.swift:20-26 | After each change, the delete button is hidden exactly outside edit mode, and the right item follows the mode. |
| ScrapedQuestionViewController.ScrapScreen.EditTapped | GreenRoom/Controller/Green/Scrap/ScrapedQuestionViewController.swift:85-88 | Enters edit mode and shows the delete button. |
| ScrapedQuestionViewController.ScrapScreen.LeaveEditModeIfBothTapped | GreenRoom/Controller/Green/Scrap/ScrapedQuestionViewController.swift:90-96 | Edit mode ends only once both buttons have emitted. |
| ScrapedQuestionViewController.ScrapScreen.CancelTapped | GreenRoom/Controller/Green/Scrap/ScrapedQuestionViewController.swift:90-96 | Leaves edit mode only if delete was tapped before; otherwise nothing visible changes. |
| ScrapedQuestionViewController.ScrapScreen.DeleteTapped | GreenRoom/Controller/Green/Scrap/ScrapedQuestionViewController.swift:90-98 | Forwards one delete request, and leaves edit mode only if cancel was tapped before. |
| ScrapedQuestionViewController.ScrapScreen.ViewWillAppear | GreenRoom/Controller/Green/Scrap/ScrapedQuestionViewController.swift:72-78 | Hides the delete button and shows the edit item, leaving `editMode` as it was. |
| ScrapedQuestionViewController.ScrapScreen.CellSelectionChanged | GreenRoom/Controller/Green/Scrap/ScrapedQuestionViewController.swift:152-159 | A selection appends the id at the end, duplicates included. A deselection goes to the cancel stream only. |
| ScrapedQuestionViewController.ScrapScreen.ConfigureCell | GreenRoom/Controller/Green/Scrap/ScrapedQuestionViewController.swift:134 | Each cell gets the current edit mode. |
| FilteringViewModel.HeaderTitle | GreenRoom/ViewModel/GreenRoom/Detail/FileringViewModel.swift:35-53 | The category's title for ids 1..12, "공통" for any other id, and the keyword in search mode. |
| FilteringViewModel.FilterTitleIsACategoryName | GreenRoom/ViewModel/GreenRoom/Detail/FileringViewModel.swift:40 | A filter's title is always one of the twelve category names. |
| FilteringViewModel.Fetches | GreenRoom/ViewModel/GreenRoom/Detail/FileringViewModel.swift:34-48 | Exactly one fetch per `transform`: by category in filter mode, by keyword in search mode. |
| FilteringViewModel.Sections | GreenRoom/ViewModel/GreenRoom/Detail/FileringViewModel.swift:38-53 | Exactly one section, whose items are the questions unchanged, with the mode's title and the shared subtitle. |
| FilteringViewModel.SubTitleIsShared | GreenRoom/ViewModel/GreenRoom/Detail/FileringViewModel.swift:41-52 | Every mode has the same subtitle. |
| FilteringViewModel.SearchForNameLooksLikeFilter | GreenRoom/ViewModel/GreenRoom/Detail/FileringViewModel.swift:38-53 | Searching for a category's name gives the same section as filtering by that category. |
| FilteringViewModel.Output | GreenRoom/ViewModel/GreenRoom/Detail/FileringViewModel.swift:32-59 | A delivered list becomes one section of exactly those questions. A failure is passed on. |
| RecentPublicQuestionsViewModel.Sections | GreenRoom/ViewModel/GreenRoom/RecentPublicQuestionsViewModel.swift:29-31 | One `recent` section with one item per question, in order. |
| RecentPublicQuestionsViewModel.SectionsKeepQuestions | GreenRoom/ViewModel/GreenRoom/RecentPublicQuestionsViewModel.swift:31 | Unwrapping the items gives back the questions. |
| RecentPublicQuestionsViewModel.Output | GreenRoom/ViewModel/GreenRoom/RecentPublicQuestionsViewModel.swift:27-34 | Each delivered list is one event of one section. The first failure is the stream's last event. |
| RecentPublicQuestionsViewModel.OutputWithoutErrors | GreenRoom/ViewModel/GreenRoom/RecentPublicQuestionsViewModel.swift:27-32 | Without failures, every fetch yields exactly one event. |
| RecentPublicQuestionsViewModel.OutputStopsAtFailure | GreenRoom/ViewModel/GreenRoom/RecentPublicQuestionsViewModel.swift:27-34 | A failed fetch ends the stream: nothing after it is delivered. |
| RecentPublicQuestionsViewModel.RecentRequest | GreenRoom/Services/GreenRoom/PublicQuestionService.swift:39-43 | A GET of the recent-questions URL, without a body. |
| RecentPublicQuestionsViewModel.Arrivals | GreenRoom/ViewModel/GreenRoom/RecentPublicQuestionsViewModel.swift:27-29 | The fetch results, in the order they arrive. |
| RecentPublicQuestionsViewModel.RunOf | GreenRoom/ViewModel/GreenRoom/RecentPublicQuestionsViewModel.swift:27-34 | Over interleaved triggers and fetch results: every request is the recent-questions GET, at most one per trigger. The run has failed exactly when its last output is a failure. |
| RecentPublicQuestionsViewModel.FetchPerTrigger | GreenRoom/ViewModel/GreenRoom/RecentPublicQuestionsViewModel.swift:27-28 | While no fetch has failed, every trigger event issues exactly one request, whatever its value. |
| RecentPublicQuestionsViewModel.NothingAfterFailure | GreenRoom/ViewModel/GreenRoom/RecentPublicQuestionsViewModel.swift:27-34 | After a failure, later triggers issue no request and later results send no output. |
| RecentPublicQuestionsViewModel.TriggerAfterFailure | GreenRoom/ViewModel/GreenRoom/RecentPublicQuestionsViewModel.swift:27-28 | A trigger, a failed fetch and a second trigger issue one request. |
| RecentPublicQuestionsViewModel.OutputStep | GreenRoom/ViewModel/GreenRoom/RecentPublicQuestionsViewModel.swift:29-32 | One more result is appended as an event unless the output has already failed. |
| RecentPublicQuestionsViewModel.RunOutputIsOutput | GreenRoom/ViewModel/GreenRoom/RecentPublicQuestionsViewModel.swift:27-34 | The run's output is `Output` over the results in arrival order. |

## Left out

- Network I/O. Alamofire, the `AuthManager` interceptor, `NetworkManager` and JSON decoding are left out: responses are inputs: `Completed(status)` for a `.success` result with that status, `TransportFailure` for a `.failure` result, plus the decoded body when there is one. The question uploads read their reply with `responseData` or `responseString`, which fail on an empty body unless the status is 204 or 205; such a reply is a `TransportFailure` input, whatever its status, and the status classification never sees it. `ScrapService` is a pass-through of the same kind and is not modelled.
- Other screens and services. `fetchPrivateQuestions`, `fetchFilteredQuestion`, `fetchPopularPublicQuestions` and `fetchPublicQuestions` are modelled only by their URLs. The flag mapping of `updateKeywords` and `removeAnswer` is `FlagOutcome`.
- `Constants.baseURL` is not part of this model. The server address is the `host` parameter of every URL function.
- The `Category` enum is not part of this model. It is taken to have the raw values 1..12, titled by the twelve names of the category list in order.
- The request body structs `UploadPrivateQuestionModel`, `UploadQuestionModel` and `UploadPublicQuestionModel` are not part of this model. The model assumes that each encodes exactly the fields its initializer is given. So the first two both become `QuestionBody(categoryId, question)`, and the upload requests of `MyQuestionService` and `GreenRoomQuestionService` equal the private one only under this assumption.
- `QuestionService`, which the two create view models call, is not part of this model. The model assumes that its upload classifies responses like `MyQuestionService.uploadQuestionList`, and uses that adapter in its place.
- `CategoryViewModel` is not part of this model. Its initial selection is the argument of `GroupEditScreen.Add`, and its category list is `Categories()`.
- `BaseQuestionsViewModel` is not part of this model. Its relays (`hasNextPage`, the current page, the filter) are fields of `FindQuestionScreen`, and the view model's own loads are the `HasNextPageChanged` and `ReferenceChanged` events.
- `ScrapViewModel` and `PrivateAnswerViewModel` are not part of this model. The screens' outputs to them are recorded as sequences (`cancelled`, `deleteRequests`, `DeleteTriggers`, `AnswerTexts`).
- Rx scheduling. Each stream is an ordered sequence of events, and `zip` is two FIFO buffers. `flatMapLatest` cancels the older upload: only the newest is awaited, and a response is delivered for it.
- Layout, colours, fonts, attributed text, image loading, navigation and alert presentation are left out. An alert's outcome is an input.
- Swift `Int` is 64-bit; the model uses unbounded integers. No arithmetic in the core is near the bounds.
- KPGroupEditViewController.OnBeginEditing: compares texts code point by code point. Swift's `String ==` compares by canonical equivalence, so two differently composed spellings of the same text are equal in Swift and different here.
- KPGroupEditViewController.OnEndEditing: the same code-point comparison of the text with the placeholder.
- KPGroupEditViewController.CompleteHidden: the same code-point comparison of the name with the placeholder.
- KPGroupEditViewController.TruncatedIdempotent: stated over code points, as `Truncated` is.
- CreateViewModel.IsValid: the same code-point comparison of the text with the placeholder.
- PrivateAnswerViewController.PrivateAnswerScreen.AnswerDidBeginEditing: the same code-point comparison of the text with the placeholder.
- PrivateAnswerViewController.PrivateAnswerScreen.AnswerDidEndEditing: the same code-point comparison of the text with the empty string and the placeholder.
- PrivateAnswerViewController.DistinctUntilChanged: consecutive texts are compared code point by code point, where `distinctUntilChanged` uses Swift's canonical equivalence.
- KPGroupEditViewController.Truncated: counts Unicode scalars, whereas Swift's `prefix(10)` counts grapheme clusters. Composed characters such as emoji sequences are cut differently.
- KPFindQuestionViewController.FindQuestionScreen.DidScroll: the `CGFloat` scroll geometry is modelled as integers. The threshold test is the same strict comparison.
