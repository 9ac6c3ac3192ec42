/** The screen that adds or renames a keyword-practice group: a name field
    with a placeholder, a ten-character limit, a category picker and a
    completion button that is shown only for a usable name and category. */
module KPGroupEditViewController {
  import opened Common

  /** The hint shown in the empty name field. */
  const Placeholder: string := "그룹 이름을 입력해주세요:)"

  /** The longest group name the field keeps. */
  const MaxNameLength: nat := 10

  /** The text binding: any text other than the placeholder is cut to its
      first ten characters. */
  function Truncated(text: string): (r: string)
    ensures text == Placeholder ==> r == Placeholder
    ensures text != Placeholder ==> |r| == if |text| <= MaxNameLength then |text| else MaxNameLength
    ensures r <= text
  {
    if text == Placeholder then text
    else if |text| <= MaxNameLength then text
    else text[..MaxNameLength]
  }

  /** Truncation never produces the placeholder from another text (the
      placeholder is longer than ten characters), so applying it twice is
      applying it once. */
  lemma TruncatedIdempotent(text: string)
    ensures Truncated(text) == Placeholder <==> text == Placeholder
    ensures Truncated(Truncated(text)) == Truncated(text)
  {
    assert |Placeholder| == 15;
  }

  /** Beginning to edit clears the field only if it shows the placeholder. */
  function OnBeginEditing(text: string): (r: string)
    ensures r == "" <==> text == Placeholder || text == ""
    ensures text != Placeholder ==> r == text
  {
    if text == Placeholder then "" else text
  }

  /** Ending an edit puts the placeholder back only into an empty field. */
  function OnEndEditing(text: string): (r: string)
    ensures r == Placeholder <==> text == "" || text == Placeholder
    ensures text != "" ==> r == text
  {
    if text == "" then Placeholder else text
  }

  /** Beginning and then ending an edit without typing gives back any
      non-empty text, the placeholder included; and a field that shows the
      placeholder is empty while it is being edited. */
  lemma EditWithoutTypingRoundTrip(text: string)
    requires text != ""
    ensures OnEndEditing(OnBeginEditing(text)) == text
    ensures text == Placeholder ==> OnBeginEditing(text) == ""
  {
  }

  /** The completion button rule: hidden when the text is empty, is the
      placeholder, or the category id renders as "-1". */
  function CompleteHidden(categoryId: int, text: string): (hidden: bool)
    ensures hidden <==> text == "" || text == Placeholder || categoryId == -1
  {
    DecimalStringIsMinusOne(categoryId);
    text == "" || text == Placeholder || DecimalString(categoryId) == "-1"
  }

  /** The dictionary comparison `id == "-1"` singles out exactly the id -1. */
  lemma DecimalStringIsMinusOne(id: int)
    ensures DecimalString(id) == "-1" <==> id == -1
  {
    assert DecimalString(-1) == "-1" by {
      assert Digits(1) == "1";
    }
    DecimalStringInjective(id, -1);
  }

  /** Truncating the text never changes whether the button is hidden, so
      the order in which the two text bindings run does not matter. */
  lemma HiddenUnaffectedByTruncation(categoryId: int, text: string)
    ensures CompleteHidden(categoryId, Truncated(text)) == CompleteHidden(categoryId, text)
  {
    TruncatedIdempotent(text);
  }

  /** The request the completion button sends. */
  datatype GroupRequest =
    | EditGroup(groupId: int, categoryId: int, name: string)
    | AddGroup(categoryId: int, name: string)

  class GroupEditScreen {
    /** The name field's text. */
    var text: string
    /** The category selection relay. */
    var selectedCategory: int
    /** Present when an existing group is edited. */
    var groupId: Option<int>
    /** `completeButton.isHidden`. */
    var completeHidden: bool

    /** The bindings have run on the current state: the text is cut to ten
        characters (or is the placeholder) and the button follows the rule. */
    ghost predicate Valid()
      reads this
    {
      && Truncated(text) == text
      && completeHidden == CompleteHidden(selectedCategory, text)
    }

    /** `init()`: adding a new group. The initial selection belongs to the
        category view model and is passed in. */
    constructor Add(initialCategory: int)
      ensures Valid()
      ensures text == Placeholder && selectedCategory == initialCategory
      ensures groupId.None? && completeHidden
    {
      text := Placeholder;
      selectedCategory := initialCategory;
      groupId := None;
      completeHidden := true;
    }

    /** `init(groupId:categoryId:categoryName:)`: editing a group seeds the
        id, the selection and the text (the text binding then cuts it). */
    constructor Edit(groupId: int, categoryId: int, categoryName: string)
      ensures Valid()
      ensures this.groupId == Some(groupId) && selectedCategory == categoryId
      ensures text == Truncated(categoryName)
    {
      TruncatedIdempotent(categoryName);
      this.groupId := Some(groupId);
      selectedCategory := categoryId;
      text := Truncated(categoryName);
      completeHidden := CompleteHidden(categoryId, Truncated(categoryName));
    }

    /** Every change of the text runs the truncation and the button rule. */
    method SetText(newText: string)
      requires Valid()
      modifies this`text, this`completeHidden
      ensures Valid()
      ensures text == Truncated(newText)
      ensures completeHidden == CompleteHidden(selectedCategory, newText)
    {
      TruncatedIdempotent(newText);
      HiddenUnaffectedByTruncation(selectedCategory, newText);
      text := Truncated(newText);
      completeHidden := CompleteHidden(selectedCategory, text);
    }

    /** The user typed: the field holds `typed`. */
    method TextTyped(typed: string)
      requires Valid()
      modifies this`text, this`completeHidden
      ensures Valid()
      ensures text == Truncated(typed) && text <= typed
      ensures typed != Placeholder ==> |text| <= MaxNameLength
    {
      SetText(typed);
    }

    method DidBeginEditing()
      requires Valid()
      modifies this`text, this`completeHidden
      ensures Valid()
      ensures text == OnBeginEditing(old(text))
    {
      SetText(OnBeginEditing(text));
    }

    method DidEndEditing()
      requires Valid()
      modifies this`text, this`completeHidden
      ensures Valid()
      ensures text == OnEndEditing(old(text))
    {
      SetText(OnEndEditing(text));
    }

    /** Selecting the item in row `row` selects category `row + 1`. */
    method ItemSelected(row: nat)
      requires Valid()
      modifies this`selectedCategory, this`completeHidden
      ensures Valid()
      ensures selectedCategory == row + 1
      ensures completeHidden == (text == "" || text == Placeholder)
    {
      selectedCategory := row + 1;
      completeHidden := CompleteHidden(selectedCategory, text);
    }

    /** The cell at `index` shows `Category(rawValue: index + 1)` (and is not
        configured when there is none), selected when that is the current
        category. */
    method ConfigureCell(index: int) returns (category: Option<int>, selected: bool)
      ensures category.Some? <==> 0 <= index <= 11
      ensures category.Some? ==> category.value == index + 1
      ensures selected <==> category.Some? && selectedCategory == index + 1
    {
      category := CategoryOf(index + 1);
      selected := category.Some? && selectedCategory == index + 1;
    }

    /** The completion button (only tappable while shown): edits the group
        when there is a group id and adds one otherwise, with the current
        category and text. */
    method Complete() returns (req: GroupRequest)
      requires Valid() && !completeHidden
      ensures req.EditGroup? <==> groupId.Some?
      ensures req.EditGroup? ==> req.groupId == groupId.value
      ensures req.categoryId == selectedCategory && req.name == text
      ensures req.categoryId != -1
      ensures 0 < |req.name| <= MaxNameLength && req.name != Placeholder
    {
      if groupId.Some? {
        req := EditGroup(groupId.value, selectedCategory, text);
      } else {
        req := AddGroup(selectedCategory, text);
      }
    }
  }
}
