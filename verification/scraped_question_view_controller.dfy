/** The scrapped-questions screen: an edit mode that shows a delete button
    and swaps the right bar item, left again once both the cancel and the
    delete button have been tapped, and the selection bookkeeping of the
    scrap cells. */
module ScrapedQuestionViewController {

  /** The custom view of the right bar item. */
  datatype BarItem = EditItem | CancelItem

  /** The right bar item for an edit mode: cancel while editing, edit
      otherwise. */
  function RightItem(editMode: bool): (item: BarItem)
    ensures item == CancelItem <==> editMode
  {
    if editMode then CancelItem else EditItem
  }

  class ScrapScreen {
    var editMode: bool
    var deleteHidden: bool
    var rightItem: BarItem
    /** Whether each button of the combineLatest has emitted at least once. */
    var cancelTapped: bool
    var deleteTapped: bool
    /** `selectedIndexesObservable.value`. */
    var selected: seq<int>
    /** The ids sent to `cancelIndexObservable`, oldest first. */
    var cancelled: seq<int>
    /** The number of delete taps forwarded to the view model. */
    var deleteRequests: nat

    /** Outside edit mode the delete button is hidden and the edit item is
        shown (the appearance reset may also hide them while editing). */
    ghost predicate Valid()
      reads this
    {
      !editMode ==> deleteHidden && rightItem == EditItem
    }

    /** A fresh screen after the appearance reset: not editing, nothing
        selected. */
    constructor ()
      ensures Valid()
      ensures !editMode && deleteHidden && rightItem == EditItem
      ensures !cancelTapped && !deleteTapped
      ensures selected == [] && cancelled == [] && deleteRequests == 0
    {
      editMode := false;
      deleteHidden := true;
      rightItem := EditItem;
      cancelTapped, deleteTapped := false, false;
      selected, cancelled := [], [];
      deleteRequests := 0;
    }

    /** Assigning `editMode` and its `didSet`: the delete button is hidden
        exactly outside edit mode and the right item follows the mode. */
    method SetEditMode(b: bool)
      modifies this`editMode, this`deleteHidden, this`rightItem
      ensures Valid()
      ensures editMode == b && deleteHidden == !b && rightItem == RightItem(b)
    {
      editMode := b;
      deleteHidden := !editMode;
      rightItem := RightItem(editMode);
    }

    /** The edit button enters edit mode. */
    method EditTapped()
      modifies this`editMode, this`deleteHidden, this`rightItem
      ensures Valid()
      ensures editMode && !deleteHidden && rightItem == CancelItem
    {
      SetEditMode(true);
    }

    /** The combineLatest of the two buttons: edit mode is left only once
        both have emitted. */
    method LeaveEditModeIfBothTapped()
      requires Valid()
      modifies this`editMode, this`deleteHidden, this`rightItem
      ensures Valid()
      ensures cancelTapped && deleteTapped ==> !editMode && deleteHidden && rightItem == EditItem
      ensures !(cancelTapped && deleteTapped) ==>
                editMode == old(editMode) && deleteHidden == old(deleteHidden) && rightItem == old(rightItem)
    {
      if cancelTapped && deleteTapped {
        SetEditMode(false);
      }
    }

    /** The cancel button. */
    method CancelTapped()
      requires Valid()
      modifies this`cancelTapped, this`editMode, this`deleteHidden, this`rightItem
      ensures Valid() && cancelTapped
      ensures deleteTapped ==> !editMode
      ensures !deleteTapped ==>
                editMode == old(editMode) && deleteHidden == old(deleteHidden) && rightItem == old(rightItem)
    {
      cancelTapped := true;
      LeaveEditModeIfBothTapped();
    }

    /** The delete button: forwarded to the view model, and part of the
        combineLatest. */
    method DeleteTapped()
      requires Valid()
      modifies this`deleteTapped, this`deleteRequests, this`editMode, this`deleteHidden, this`rightItem
      ensures Valid() && deleteTapped
      ensures deleteRequests == old(deleteRequests) + 1
      ensures cancelTapped ==> !editMode
      ensures !cancelTapped ==>
                editMode == old(editMode) && deleteHidden == old(deleteHidden) && rightItem == old(rightItem)
    {
      deleteTapped := true;
      deleteRequests := deleteRequests + 1;
      LeaveEditModeIfBothTapped();
    }

    /** `viewWillAppear`: the edit item is shown and the delete button is
        hidden directly, without changing `editMode`. */
    method ViewWillAppear()
      requires Valid()
      modifies this`deleteHidden, this`rightItem
      ensures Valid()
      ensures deleteHidden && rightItem == EditItem && editMode == old(editMode)
    {
      rightItem := EditItem;
      deleteHidden := true;
    }

    /** `didSelectScrapCell`: a selection appends the question id at the
        end, duplicates included; a deselection goes to the cancel stream and
        leaves the selected list alone. */
    method CellSelectionChanged(isSelected: bool, questionId: int)
      requires Valid()
      modifies this`selected, this`cancelled
      ensures Valid()
      ensures isSelected ==> selected == old(selected) + [questionId] && cancelled == old(cancelled)
      ensures !isSelected ==> selected == old(selected) && cancelled == old(cancelled) + [questionId]
    {
      if isSelected {
        selected := selected + [questionId];
      } else {
        cancelled := cancelled + [questionId];
      }
    }

    /** A cell is configured with the current edit mode. */
    method ConfigureCell() returns (cellEditMode: bool)
      ensures cellEditMode == editMode
    {
      cellEditMode := editMode;
    }
  }
}
