/** The screen for answering one of the user's private questions. Its
    `mode` (no answer yet, an answer written, editing) decides which views
    are visible and which bar button is shown; the answer text reaches the
    view model only when an edit ends; deleting asks for confirmation. */
module PrivateAnswerViewController {
  import opened Common

  datatype Mode = UnWritten | Written(answer: string) | Edit

  /** The custom view of the right bar button. */
  datatype BarButton = DoneButton | DeleteButton

  /** The right bar button of a mode: done while editing, delete otherwise. */
  function RightButton(m: Mode): (b: BarButton)
    ensures b == DoneButton <==> m == Edit
  {
    if m == Edit then DoneButton else DeleteButton
  }

  /** Whether the "no answer" image, its label and the post button are
      hidden: shown only while there is no answer. */
  function PlaceholderViewsHidden(m: Mode): (hidden: bool)
    ensures hidden <==> m != UnWritten
  {
    !m.UnWritten?
  }

  /** The mode a fetched question puts the screen in: written with its
      answer when there is one, unwritten otherwise (never editing). */
  function ModeForFetched(answer: Option<string>): (m: Mode)
    ensures m != Edit
    ensures m.Written? <==> answer.Some?
    ensures answer.Some? ==> m == Written(answer.value)
  {
    match answer
    case Some(a) => Written(a)
    case None => UnWritten
  }

  class PrivateAnswerScreen {
    var mode: Mode
    var defaultViewHidden: bool
    var defaultLabelHidden: bool
    var postButtonHidden: bool
    var rightButton: BarButton
    /** The keyword view and the answer text view have been laid out. */
    var answerViewsShown: bool
    /** The answer text view's text. */
    var answerText: string
    /** The view model's placeholder for the answer text view. */
    const placeholder: string

    /** The visible views agree with the mode, and once an answer is shown
        or edited its views stay laid out. */
    ghost predicate Valid()
      reads this
    {
      && defaultViewHidden == PlaceholderViewsHidden(mode)
      && defaultLabelHidden == PlaceholderViewsHidden(mode)
      && postButtonHidden == PlaceholderViewsHidden(mode)
      && rightButton == RightButton(mode)
      && (mode != UnWritten ==> answerViewsShown)
    }

    /** A fresh screen: unwritten, placeholder views shown, delete button. */
    constructor (placeholder: string)
      ensures Valid()
      ensures mode == UnWritten && !answerViewsShown
      ensures answerText == placeholder && this.placeholder == placeholder
      ensures rightButton == DeleteButton && !postButtonHidden
    {
      mode := UnWritten;
      defaultViewHidden, defaultLabelHidden, postButtonHidden := false, false, false;
      rightButton := DeleteButton;
      answerViewsShown := false;
      answerText := placeholder;
      this.placeholder := placeholder;
    }

    /** Assigning `mode` and its `didSet`: the mode's own set-up, then the
        bar button. */
    method SetMode(m: Mode)
      requires Valid()
      modifies this
      ensures Valid()
      ensures mode == m
      ensures answerViewsShown == (old(answerViewsShown) || m != UnWritten)
      ensures answerText == if m.Written? then m.answer else old(answerText)
    {
      mode := m;
      match m {
      case Edit =>
        defaultViewHidden, defaultLabelHidden, postButtonHidden := true, true, true;
        answerViewsShown := true;
      case Written(answer) =>
        defaultViewHidden, defaultLabelHidden, postButtonHidden := true, true, true;
        answerText := answer;
        answerViewsShown := true;
      case UnWritten =>
        defaultViewHidden, defaultLabelHidden, postButtonHidden := false, false, false;
      }
      rightButton := if mode == Edit then DoneButton else DeleteButton;
    }

    /** The question was fetched, with or without an answer. */
    method AnswerFetched(answer: Option<string>)
      requires Valid()
      modifies this
      ensures Valid()
      ensures mode == ModeForFetched(answer)
      ensures rightButton == DeleteButton
      ensures answer.Some? ==> answerText == answer.value && postButtonHidden
      ensures answer.None? ==> !postButtonHidden && !defaultViewHidden && !defaultLabelHidden
    {
      SetMode(ModeForFetched(answer));
    }

    /** The post button starts editing. */
    method PostTapped()
      requires Valid()
      modifies this
      ensures Valid()
      ensures mode == Edit && rightButton == DoneButton && answerViewsShown
      ensures defaultViewHidden && defaultLabelHidden && postButtonHidden
      ensures answerText == old(answerText)
    {
      SetMode(Edit);
    }

    /** Beginning to edit the answer clears it if it shows the placeholder. */
    method AnswerDidBeginEditing()
      requires Valid()
      modifies this`answerText
      ensures Valid()
      ensures answerText == if old(answerText) == placeholder then "" else old(answerText)
    {
      if answerText == placeholder {
        answerText := "";
      }
    }

    /** Ending an edit of an empty answer shows the placeholder again. */
    method AnswerDidEndEditing()
      requires Valid()
      modifies this`answerText
      ensures Valid()
      ensures answerText == if old(answerText) == "" then placeholder else old(answerText)
    {
      if answerText == "" {
        answerText := placeholder;
      }
    }
  }

  // ---------------------------------------------------------------------
  // The answer text stream: the text at each end of editing, with repeats
  // of the previous end's text dropped, then empty texts dropped.
  // ---------------------------------------------------------------------

  /** `distinctUntilChanged`: an element is kept unless it equals the one
      just before it in the input. */
  function DistinctUntilChanged(s: seq<string>): (r: seq<string>)
    ensures |r| <= |s|
    ensures |s| > 0 ==> |r| > 0 && r[|r| - 1] == s[|s| - 1]
    decreases |s|
  {
    if |s| <= 1 then s
    else
      var prefix := DistinctUntilChanged(s[..|s| - 1]);
      if s[|s| - 1] == s[|s| - 2] then prefix else prefix + [s[|s| - 1]]
  }

  /** `filter { !$0.isEmpty }`. */
  function DropEmpty(s: seq<string>): (r: seq<string>)
    ensures forall i :: 0 <= i < |r| ==> r[i] != ""
    ensures |r| <= |s|
    decreases |s|
  {
    if |s| == 0 then []
    else DropEmpty(s[..|s| - 1]) + (if s[|s| - 1] == "" then [] else [s[|s| - 1]])
  }

  /** The texts the view model receives, given the text at each end of
      editing, oldest first. */
  function AnswerTexts(endedTexts: seq<string>): (r: seq<string>)
    ensures forall i :: 0 <= i < |r| ==> r[i] != ""
  {
    DropEmpty(DistinctUntilChanged(endedTexts))
  }

  lemma {:induction false} DistinctUntilChangedHasNoRepeats(s: seq<string>)
    ensures forall i :: 0 <= i < |DistinctUntilChanged(s)| - 1 ==>
              DistinctUntilChanged(s)[i] != DistinctUntilChanged(s)[i + 1]
    decreases |s|
  {
    if |s| > 1 {
      DistinctUntilChangedHasNoRepeats(s[..|s| - 1]);
    }
  }

  lemma {:induction false} DistinctUntilChangedKeepsElements(s: seq<string>)
    ensures forall x :: x in DistinctUntilChanged(s) ==> x in s
    decreases |s|
  {
    if |s| > 1 {
      DistinctUntilChangedKeepsElements(s[..|s| - 1]);
    }
  }

  lemma {:induction false} DropEmptyKeepsNonEmpty(s: seq<string>)
    requires forall i :: 0 <= i < |s| ==> s[i] != ""
    ensures DropEmpty(s) == s
    decreases |s|
  {
    if |s| > 0 {
      DropEmptyKeepsNonEmpty(s[..|s| - 1]);
      assert s[..|s| - 1] + [s[|s| - 1]] == s;
    }
  }

  lemma {:induction false} DropEmptyKeepsElements(s: seq<string>)
    ensures forall x :: x in DropEmpty(s) ==> x in s
    decreases |s|
  {
    if |s| > 0 {
      DropEmptyKeepsElements(s[..|s| - 1]);
    }
  }

  /** One more ended text: it is kept exactly when it differs from the one
      ended just before it (the first is always kept). */
  lemma DistinctUntilChangedStep(s: seq<string>, x: string)
    ensures DistinctUntilChanged(s + [x]) ==
            DistinctUntilChanged(s) + (if |s| == 0 || x != s[|s| - 1] then [x] else [])
  {
    var t := s + [x];
    assert t[..|t| - 1] == s;
    if |s| == 0 {
      assert t == [x];
    } else {
      assert t[|t| - 2] == s[|s| - 1];
    }
  }

  /** One more text: it is kept exactly when it is not empty. */
  lemma DropEmptyStep(s: seq<string>, x: string)
    ensures DropEmpty(s + [x]) == DropEmpty(s) + (if x == "" then [] else [x])
  {
    var t := s + [x];
    assert t[..|t| - 1] == s;
  }

  /** The whole chain, one end of editing at a time: the view model receives
      the new text exactly when it is not empty and differs from the text
      of the previous end of editing; nothing sent before changes. */
  lemma AnswerTextsStep(s: seq<string>, x: string)
    ensures AnswerTexts(s + [x]) ==
            AnswerTexts(s) + (if x != "" && (|s| == 0 || x != s[|s| - 1]) then [x] else [])
  {
    DistinctUntilChangedStep(s, x);
    if |s| == 0 || x != s[|s| - 1] {
      DropEmptyStep(DistinctUntilChanged(s), x);
    }
  }

  /** The number of non-empty texts. */
  function NonEmptyCount(s: seq<string>): nat
    decreases |s|
  {
    if |s| == 0 then 0 else NonEmptyCount(s[..|s| - 1]) + (if s[|s| - 1] == "" then 0 else 1)
  }

  /** The number of positions whose text differs from the one before. */
  function Changes(s: seq<string>): nat
    decreases |s|
  {
    if |s| <= 1 then 0 else Changes(s[..|s| - 1]) + (if s[|s| - 1] == s[|s| - 2] then 0 else 1)
  }

  /** Every non-empty text is kept. */
  lemma {:induction false} DropEmptyCount(s: seq<string>)
    ensures |DropEmpty(s)| == NonEmptyCount(s)
    decreases |s|
  {
    if |s| > 0 {
      DropEmptyCount(s[..|s| - 1]);
    }
  }

  /** The first text and every text that differs from its predecessor are
      kept. */
  lemma {:induction false} DistinctUntilChangedCount(s: seq<string>)
    ensures |DistinctUntilChanged(s)| == if |s| == 0 then 0 else 1 + Changes(s)
    decreases |s|
  {
    if |s| > 1 {
      DistinctUntilChangedCount(s[..|s| - 1]);
    }
  }

  /** Every text the view model receives was the text at some end of
      editing, and none is empty. */
  lemma AnswerTextsComeFromEdits(endedTexts: seq<string>)
    ensures forall x :: x in AnswerTexts(endedTexts) ==> x in endedTexts && x != ""
  {
    DropEmptyKeepsElements(DistinctUntilChanged(endedTexts));
    DistinctUntilChangedKeepsElements(endedTexts);
  }

  /** As long as no edit ends with an empty text, the view model never
      receives the same text twice in a row. */
  lemma NoRepeatsWithoutEmptyEdits(endedTexts: seq<string>)
    requires forall i :: 0 <= i < |endedTexts| ==> endedTexts[i] != ""
    ensures forall i :: 0 <= i < |AnswerTexts(endedTexts)| - 1 ==>
              AnswerTexts(endedTexts)[i] != AnswerTexts(endedTexts)[i + 1]
  {
    var d := DistinctUntilChanged(endedTexts);
    DistinctUntilChangedKeepsElements(endedTexts);
    forall i | 0 <= i < |d| ensures d[i] != "" {
      assert d[i] in endedTexts;
    }
    DropEmptyKeepsNonEmpty(d);
    DistinctUntilChangedHasNoRepeats(endedTexts);
  }

  /** Because repeats are dropped before empty texts, an emptied edit in
      between lets the same text through twice in a row. */
  lemma RepeatAfterEmptiedEdit()
    ensures AnswerTexts(["a", "", "a"]) == ["a", "a"]
  {
    var s := ["a", "", "a"];
    assert s[..2] == ["a", ""] && s[..2][..1] == ["a"];
    assert DistinctUntilChanged(s[..2]) == ["a", ""];
    assert DistinctUntilChanged(s) == s;
    assert DropEmpty(s[..2][..1]) == ["a"];
    assert DropEmpty(s[..2]) == ["a"];
  }

  // ---------------------------------------------------------------------
  // The delete trigger
  // ---------------------------------------------------------------------

  /** The two actions of the confirmation alert. */
  datatype AlertChoice = Confirm | Cancel

  function Confirmations(choices: seq<AlertChoice>): nat
  {
    if |choices| == 0 then 0
    else Confirmations(choices[..|choices| - 1]) + (if choices[|choices| - 1] == Confirm then 1 else 0)
  }

  /** The delete trigger: one `true` per delete tap whose alert was
      confirmed; a cancelled alert emits nothing. */
  function DeleteTriggers(choices: seq<AlertChoice>): (r: seq<bool>)
    ensures |r| == Confirmations(choices)
    ensures forall i :: 0 <= i < |r| ==> r[i]
    decreases |choices|
  {
    if |choices| == 0 then []
    else
      DeleteTriggers(choices[..|choices| - 1]) + (if choices[|choices| - 1] == Confirm then [true] else [])
  }

  /** Cancelling every alert never deletes. */
  lemma {:induction false} CancelsNeverDelete(choices: seq<AlertChoice>)
    requires forall i :: 0 <= i < |choices| ==> choices[i] == Cancel
    ensures DeleteTriggers(choices) == []
    decreases |choices|
  {
    if |choices| > 0 {
      CancelsNeverDelete(choices[..|choices| - 1]);
    }
  }
}
