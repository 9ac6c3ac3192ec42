/** The filtered question list: one fetch, by category or by keyword, made
    when `transform` runs, whose result becomes a single section headed by
    the category's title (or "공통") or by the keyword. */
module FilteringViewModel {
  import opened Common

  datatype FilterMode = Filter(id: int) | Search(keyword: string)

  /** A section header. */
  datatype Info = Info(title: string, subTitle: string)

  datatype FilteringSection<Q> = FilteringSection(header: Info, items: seq<Q>)

  /** The repository call `transform` makes. */
  datatype FilteringFetch = ByCategory(categoryId: int) | ByKeyword(keyword: string)

  /** The subtitle of every filtered list. */
  const SubTitle: string :=
    "관련된 질문리스트를 보여드려요!\n질문에 참여 시 동료들의 모든 답변을 확인할 수 있어요 :)"

  /** The title used for an id that is not a category. */
  const FallbackTitle: string := "공통"

  /** The header title: the category's title for a filter (falling back to
      "공통" when the id is not a category), the keyword for a search. */
  function HeaderTitle(mode: FilterMode): (title: string)
    ensures mode.Filter? && 1 <= mode.id <= 12 ==> title == CategoryNames[mode.id - 1]
    ensures mode.Filter? && !(1 <= mode.id <= 12) ==> title == FallbackTitle
    ensures mode.Search? ==> title == mode.keyword
  {
    match mode
    case Filter(id) =>
      var t := CategoryTitle(id);
      if t.Some? then t.value else FallbackTitle
    case Search(keyword) => keyword
  }

  /** A filter's title is always one of the category names, whatever the id:
      the fallback is the first category's own name. */
  lemma FilterTitleIsACategoryName(id: int)
    ensures HeaderTitle(Filter(id)) in CategoryNames
  {
    assert CategoryNames[0] == FallbackTitle;
  }

  /** The single fetch `transform` issues, chosen by the mode. */
  function Fetches(mode: FilterMode): (fetches: seq<FilteringFetch>)
    ensures |fetches| == 1
    ensures mode.Filter? <==> fetches[0].ByCategory?
    ensures mode.Filter? ==> fetches[0] == ByCategory(mode.id)
    ensures mode.Search? ==> fetches[0] == ByKeyword(mode.keyword)
  {
    match mode
    case Filter(id) => [ByCategory(id)]
    case Search(keyword) => [ByKeyword(keyword)]
  }

  /** What the fetched questions become: exactly one section, with the
      mode's title, the shared subtitle, and the questions unchanged. */
  function Sections<Q>(mode: FilterMode, questions: seq<Q>): (sections: seq<FilteringSection<Q>>)
    ensures |sections| == 1
    ensures sections[0].items == questions
    ensures sections[0].header == Info(HeaderTitle(mode), SubTitle)
  {
    [FilteringSection(Info(HeaderTitle(mode), SubTitle), questions)]
  }

  /** Every mode's section carries the same subtitle. */
  lemma SubTitleIsShared<Q>(m1: FilterMode, m2: FilterMode, q1: seq<Q>, q2: seq<Q>)
    ensures Sections(m1, q1)[0].header.subTitle == Sections(m2, q2)[0].header.subTitle
  {
  }

  /** A search for a category's name looks exactly like filtering by that
      category. */
  lemma SearchForNameLooksLikeFilter<Q>(id: int, questions: seq<Q>)
    requires 1 <= id <= 12
    ensures Sections(Filter(id), questions) == Sections(Search(CategoryNames[id - 1]), questions)
  {
  }

  /** The output stream of `transform`, given what the single fetch did: a
      delivered list becomes one event of one section; a failure is passed
      on as the stream's error. */
  function Output<Q, E>(mode: FilterMode, fetched: Result<seq<Q>, E>): (out: Result<seq<FilteringSection<Q>>, E>)
    ensures out.Ok? <==> fetched.Ok?
    ensures out.Ok? ==> |out.value| == 1 && out.value[0].items == fetched.value
    ensures out.Err? ==> out.error == fetched.error
  {
    match fetched
    case Ok(questions) => Ok(Sections(mode, questions))
    case Err(e) => Err(e)
  }
}
