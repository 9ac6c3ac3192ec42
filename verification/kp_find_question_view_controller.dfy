/** The keyword-practice question finder: a list that loads its next page
    when scrolled past the bottom, guarded by an `isPaging` flag and the
    view model's `hasNextPage`, filtered by the selected category ids. */
module KPFindQuestionViewController {
  import opened Common

  /** The last page of reference questions the view model holds; only its
      page number matters to paging. */
  datatype ReferencePage = ReferencePage(currentPages: int)

  /** One `fetchReferenceQuestions` call. */
  datatype PageRequest = PageRequest(categoryId: string, title: Option<string>, page: int)

  /** The selected category ids, each in decimal, in selection order. */
  function IdStrings(ids: seq<int>): (parts: seq<string>)
    ensures |parts| == |ids|
    ensures forall i :: 0 <= i < |ids| ==> parts[i] == DecimalString(ids[i])
  {
    seq(|ids|, i requires 0 <= i < |ids| => DecimalString(ids[i]))
  }

  /** The comma join of the id strings is empty exactly when there are no
      ids, and splits back into the id strings. */
  lemma JoinedIds(ids: seq<int>)
    ensures Join(IdStrings(ids), ',') == "" <==> |ids| == 0
    ensures |ids| > 0 ==> Split(Join(IdStrings(ids), ','), ',') == IdStrings(ids)
  {
    var parts := IdStrings(ids);
    if |ids| > 0 {
      assert |parts[0]| > 0;
      forall i | 0 <= i < |parts| ensures ',' !in parts[i] {
        DecimalStringHasNoComma(ids[i]);
      }
      SplitJoin(parts, ',');
    }
  }

  /** The filter string: the selected category ids in selection order,
      each in decimal, joined with commas. It is empty exactly when no
      category is selected, and otherwise splits at the commas into the
      ids' decimal strings. */
  function FilterString(ids: seq<int>): (filter: string)
    ensures filter == "" <==> |ids| == 0
    ensures |ids| > 0 ==> Split(filter, ',') == IdStrings(ids)
  {
    JoinedIds(ids);
    Join(IdStrings(ids), ',')
  }

  /** Splitting the filter string at the commas and reading each piece back
      as an integer gives the selected ids, in the same order. */
  lemma FilterStringRoundTrip(ids: seq<int>)
    requires |ids| > 0
    ensures |Split(FilterString(ids), ',')| == |ids|
    ensures forall i :: 0 <= i < |ids| ==> ParseInt(Split(FilterString(ids), ',')[i]) == Some(ids[i])
  {
    var parts := IdStrings(ids);
    forall i | 0 <= i < |ids| ensures ParseInt(parts[i]) == Some(ids[i]) {
      DecimalRoundTrip(ids[i]);
    }
  }

  /** The scroll trigger: the offset is past the content height minus the
      table's height, that is, the bottom of the visible frame lies strictly
      below the end of the content. */
  function PastThreshold(offsetY: int, contentHeight: int, frameHeight: int): (past: bool)
    ensures past <==> offsetY + frameHeight > contentHeight
  {
    offsetY > contentHeight - frameHeight
  }

  class FindQuestionScreen {
    var isPaging: bool
    /** The view model's relays this screen reads. */
    var hasNextPage: bool
    var reference: Option<ReferencePage>
    var searchText: Option<string>
    var filter: string
    /** Every page request issued, oldest first. */
    var requests: seq<PageRequest>
    /** A page request has been issued and its page has not arrived. */
    ghost var awaiting: bool

    ghost predicate Valid()
      reads this
    {
      awaiting ==> isPaging && |requests| > 0
    }

    /** Paging was started but no request went out: nothing will ever
        clear the flag again. */
    ghost predicate Stuck()
      reads this
    {
      isPaging && !awaiting
    }

    /** A fresh screen; the view model's initial relay values are given. */
    constructor (hasNextPage: bool, filter: string)
      ensures Valid()
      ensures !isPaging && !awaiting && requests == []
      ensures this.hasNextPage == hasNextPage && this.filter == filter
      ensures reference.None? && searchText.None?
    {
      isPaging := false;
      this.hasNextPage := hasNextPage;
      reference := None;
      searchText := None;
      this.filter := filter;
      requests := [];
      awaiting := false;
    }

    /** `beginPaging`: the flag is set first; with a current page, the next
        page is requested with the current search text and filter; without
        one, the method returns and the flag stays set. */
    method BeginPaging()
      requires Valid()
      modifies this`isPaging, this`requests, this`awaiting
      ensures Valid() && isPaging
      ensures old(reference).Some? ==>
                && requests == old(requests) + [PageRequest(filter, searchText, old(reference).value.currentPages + 1)]
                && awaiting
      ensures old(reference).None? ==> requests == old(requests) && awaiting == old(awaiting)
    {
      isPaging := true;
      if reference.None? {
        return;
      }
      var nextPage := reference.value.currentPages;
      requests := requests + [PageRequest(filter, searchText, nextPage + 1)];
      awaiting := true;
    }

    /** The table scrolled. Paging begins only past the threshold, with a
        next page, and while not already paging; so no second request is
        ever issued while one is awaited, and a stuck screen stays stuck. */
    method DidScroll(offsetY: int, contentHeight: int, frameHeight: int)
      requires Valid()
      modifies this`isPaging, this`requests, this`awaiting
      ensures Valid()
      ensures var begins := PastThreshold(offsetY, contentHeight, frameHeight) && hasNextPage && !old(isPaging);
              && (begins ==> isPaging)
              && (!begins ==> isPaging == old(isPaging) && awaiting == old(awaiting))
              && (begins && reference.Some? ==>
                    requests == old(requests) + [PageRequest(filter, searchText, reference.value.currentPages + 1)])
              && (!(begins && reference.Some?) ==> requests == old(requests))
      ensures old(awaiting) ==> requests == old(requests)
      ensures old(Stuck()) ==> Stuck() && requests == old(requests)
    {
      if PastThreshold(offsetY, contentHeight, frameHeight) {
        if hasNextPage && !isPaging {
          BeginPaging();
        }
      }
    }

    /** The awaited page arrived: it replaces the current reference and
        paging is over. */
    method PageDelivered(page: ReferencePage)
      requires Valid() && awaiting
      modifies this`reference, this`isPaging, this`awaiting
      ensures Valid()
      ensures reference == Some(page) && !isPaging && !awaiting
    {
      reference := Some(page);
      isPaging := false;
      awaiting := false;
    }

    /** The awaited fetch failed: only the `onNext` handler clears the flag,
        so paging stays on with nothing awaited, and the screen is stuck. */
    method PageFailed()
      requires Valid() && awaiting
      modifies this`awaiting
      ensures Valid() && Stuck()
      ensures isPaging && reference == old(reference) && requests == old(requests)
    {
      awaiting := false;
    }

    /** The filter view's selection changed. */
    method CategoriesSelected(ids: seq<int>)
      requires Valid()
      modifies this`filter
      ensures Valid() && filter == FilterString(ids)
    {
      filter := FilterString(ids);
    }

    /** The search bar's text changed. */
    method SearchTextChanged(text: Option<string>)
      requires Valid()
      modifies this`searchText
      ensures Valid() && searchText == text
    {
      searchText := text;
    }

    /** The view model published whether another page exists. */
    method HasNextPageChanged(b: bool)
      requires Valid()
      modifies this`hasNextPage
      ensures Valid() && hasNextPage == b
    {
      hasNextPage := b;
    }

    /** The view model loaded a page of its own (the first search). */
    method ReferenceChanged(page: ReferencePage)
      requires Valid()
      modifies this`reference
      ensures Valid() && reference == Some(page)
    {
      reference := Some(page);
    }
  }
}
