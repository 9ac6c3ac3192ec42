/** The keyword register of an answer: a list that starts empty, is seeded
    from the question's stored keywords for private and keyword-practice
    questions, and grows by the latest non-empty typed keyword at each
    trigger. */
module RegisterKeywordViewModel {
  import opened Common

  datatype AnswerType = Public | Private | KpQuestion

  /** The fetch `transform` issues for the seed keywords. */
  datatype SeedFetch = FetchPrivateQuestion(id: int) | FetchGroupQuestion(id: int)

  /** The seed fetch of an answer type: none for a public question, the
      private question for a private answer, the group question for a
      keyword-practice answer, always for the view model's own id. */
  function SeedFetches(answerType: AnswerType, id: int): (fetches: seq<SeedFetch>)
    ensures |fetches| == 0 <==> answerType == Public
    ensures |fetches| <= 1
    ensures forall f :: f in fetches ==> f.id == id
    ensures answerType == Private ==> fetches == [FetchPrivateQuestion(id)]
    ensures answerType == KpQuestion ==> fetches == [FetchGroupQuestion(id)]
  {
    match answerType
    case Public => []
    case Private => [FetchPrivateQuestion(id)]
    case KpQuestion => [FetchGroupQuestion(id)]
  }

  class KeywordRegistry {
    const id: int
    const answerType: AnswerType
    /** The fetches issued by `transform`. */
    const fetches: seq<SeedFetch>
    /** `registeredKeywordObservable.value`. */
    var keywords: seq<string>
    /** The latest non-empty typed keyword, which a trigger samples. */
    var latestKeyword: Option<string>
    /** The list the last seed fetch delivered (empty before any), and the
        keywords appended since. */
    ghost var seed: seq<string>
    ghost var appended: seq<string>

    /** The list is the latest seed followed by the keywords appended since,
        none of them empty; a public register was never seeded. */
    ghost predicate Valid()
      reads this
    {
      && fetches == SeedFetches(answerType, id)
      && keywords == seed + appended
      && (forall i :: 0 <= i < |appended| ==> appended[i] != "")
      && (latestKeyword.Some? ==> latestKeyword.value != "")
      && (answerType == Public ==> seed == [])
    }

    /** `init` followed by `transform`: an empty list, and the seed fetch of
        the answer type issued. */
    constructor (id: int, answerType: AnswerType)
      ensures Valid()
      ensures this.id == id && this.answerType == answerType
      ensures keywords == [] && latestKeyword.None?
      ensures fetches == SeedFetches(answerType, id)
    {
      this.id := id;
      this.answerType := answerType;
      fetches := SeedFetches(answerType, id);
      keywords := [];
      latestKeyword := None;
      seed, appended := [], [];
    }

    /** The seed fetch delivered the question's keywords: they replace the
        whole list, including anything appended before they arrived. */
    method KeywordsFetched(fetched: seq<string>)
      requires Valid() && |fetches| > 0
      modifies this`keywords, this`seed, this`appended
      ensures Valid()
      ensures keywords == fetched && latestKeyword == old(latestKeyword)
    {
      keywords := fetched;
      seed, appended := fetched, [];
    }

    /** The keyword field emitted `typed`; empty texts are filtered out
        before the trigger can sample them. */
    method KeywordTyped(typed: string)
      requires Valid()
      modifies this`latestKeyword
      ensures Valid()
      ensures latestKeyword == if typed == "" then old(latestKeyword) else Some(typed)
      ensures keywords == old(keywords)
    {
      if typed != "" {
        latestKeyword := Some(typed);
      }
    }

    /** The register trigger: with a non-empty keyword typed so far, the
        latest one is appended at the end, even when the list already holds
        it; before that, nothing happens. */
    method Trigger()
      requires Valid()
      modifies this`keywords, this`appended
      ensures Valid()
      ensures old(latestKeyword).Some? ==> keywords == old(keywords) + [old(latestKeyword).value]
      ensures old(latestKeyword).None? ==> keywords == old(keywords)
      ensures |keywords| >= |old(keywords)| && keywords[..|old(keywords)|] == old(keywords)
      ensures forall k :: k in keywords ==> k in old(keywords) || (k != "" && Some(k) == latestKeyword)
    {
      if latestKeyword.Some? {
        keywords := keywords + [latestKeyword.value];
        appended := appended + [latestKeyword.value];
      }
    }
  }
}
