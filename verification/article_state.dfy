/** The immutable UI snapshot `ArticleState` of the article screen, the
    per-field vocabulary used to say which fields a transition may change,
    and the `save` / `restore` pair that carries the search fields across a
    process restart. */
module ArticleStates {
  import opened Wrappers
  import opened KotlinInts

  /** An object the screen only passes along (an author, an icon, a review);
      its identity is all the model needs. */
  datatype Ref = Ref(id: nat)

  /** One element of the article body (`List<Any>`): a text block or some
      other rendered item. */
  datatype Item = Text(text: string) | Block(ref: Ref)

  /** A search hit: the start and end offsets of the match in the text
      (Kotlin `Pair<Int, Int>`). */
  datatype Span = Span(start: Int32, end: Int32)

  datatype ArticleState = ArticleState(
    isAuth: bool,
    isLoadingContent: bool,
    isLoadingReviews: bool,
    isLike: bool,
    isBookmark: bool,
    isShowMenu: bool,
    isBigText: bool,
    isDarkMode: bool,
    isSearch: bool,
    searchQuery: Option<string>,
    searchResults: seq<Span>,
    searchPosition: Int32,
    shareLink: Option<string>,
    title: Option<string>,
    category: Option<string>,
    categoryIcon: Option<Ref>,
    date: Option<string>,
    author: Option<Ref>,
    poster: Option<string>,
    content: seq<Item>,
    reviews: seq<Ref>
  )

  /** The state the screen starts in: every default of the record. */
  const Initial: ArticleState := ArticleState(
    isAuth := false, isLoadingContent := true, isLoadingReviews := true,
    isLike := false, isBookmark := false, isShowMenu := false,
    isBigText := false, isDarkMode := false, isSearch := false,
    searchQuery := None, searchResults := [], searchPosition := 0,
    shareLink := None, title := None, category := None, categoryIcon := None,
    date := None, author := None, poster := None, content := [], reviews := [])

  /** The names of the fields of `ArticleState`. */
  datatype Field =
    | IsAuth | IsLoadingContent | IsLoadingReviews | IsLike | IsBookmark
    | IsShowMenu | IsBigText | IsDarkMode | IsSearch | SearchQuery
    | SearchResults | SearchPosition | ShareLink | Title | Category
    | CategoryIcon | Date | Author | Poster | Content | Reviews

  /** `a` and `b` hold the same value in field `f`. */
  predicate Agree(a: ArticleState, b: ArticleState, f: Field) {
    match f
    case IsAuth => a.isAuth == b.isAuth
    case IsLoadingContent => a.isLoadingContent == b.isLoadingContent
    case IsLoadingReviews => a.isLoadingReviews == b.isLoadingReviews
    case IsLike => a.isLike == b.isLike
    case IsBookmark => a.isBookmark == b.isBookmark
    case IsShowMenu => a.isShowMenu == b.isShowMenu
    case IsBigText => a.isBigText == b.isBigText
    case IsDarkMode => a.isDarkMode == b.isDarkMode
    case IsSearch => a.isSearch == b.isSearch
    case SearchQuery => a.searchQuery == b.searchQuery
    case SearchResults => a.searchResults == b.searchResults
    case SearchPosition => a.searchPosition == b.searchPosition
    case ShareLink => a.shareLink == b.shareLink
    case Title => a.title == b.title
    case Category => a.category == b.category
    case CategoryIcon => a.categoryIcon == b.categoryIcon
    case Date => a.date == b.date
    case Author => a.author == b.author
    case Poster => a.poster == b.poster
    case Content => a.content == b.content
    case Reviews => a.reviews == b.reviews
  }

  /** Going from `a` to `b` changes no field outside `fs`. */
  ghost predicate OnlyChanges(a: ArticleState, b: ArticleState, fs: set<Field>) {
    forall f :: f !in fs ==> Agree(a, b, f)
  }

  /** The fields that survive a process restart. */
  const SearchFields: set<Field> := {IsSearch, SearchQuery, SearchResults, SearchPosition}

  /** Two states that agree on every field are the same state: `OnlyChanges`
      with no fields means "nothing changed". */
  lemma NoChangeIsIdentity(a: ArticleState, b: ArticleState)
    requires OnlyChanges(a, b, {})
    ensures a == b
  {
    assert a.isAuth == b.isAuth by { assert Agree(a, b, IsAuth); }
    assert a.isLoadingContent == b.isLoadingContent by { assert Agree(a, b, IsLoadingContent); }
    assert a.isLoadingReviews == b.isLoadingReviews by { assert Agree(a, b, IsLoadingReviews); }
    assert a.isLike == b.isLike by { assert Agree(a, b, IsLike); }
    assert a.isBookmark == b.isBookmark by { assert Agree(a, b, IsBookmark); }
    assert a.isShowMenu == b.isShowMenu by { assert Agree(a, b, IsShowMenu); }
    assert a.isBigText == b.isBigText by { assert Agree(a, b, IsBigText); }
    assert a.isDarkMode == b.isDarkMode by { assert Agree(a, b, IsDarkMode); }
    assert a.isSearch == b.isSearch by { assert Agree(a, b, IsSearch); }
    assert a.searchQuery == b.searchQuery by { assert Agree(a, b, SearchQuery); }
    assert a.searchResults == b.searchResults by { assert Agree(a, b, SearchResults); }
    assert a.searchPosition == b.searchPosition by { assert Agree(a, b, SearchPosition); }
    assert a.shareLink == b.shareLink by { assert Agree(a, b, ShareLink); }
    assert a.title == b.title by { assert Agree(a, b, Title); }
    assert a.category == b.category by { assert Agree(a, b, Category); }
    assert a.categoryIcon == b.categoryIcon by { assert Agree(a, b, CategoryIcon); }
    assert a.date == b.date by { assert Agree(a, b, Date); }
    assert a.author == b.author by { assert Agree(a, b, Author); }
    assert a.poster == b.poster by { assert Agree(a, b, Poster); }
    assert a.content == b.content by { assert Agree(a, b, Content); }
    assert a.reviews == b.reviews by { assert Agree(a, b, Reviews); }
  }

  /** Changes compose: two steps change at most the fields either step may. */
  lemma OnlyChangesTrans(a: ArticleState, b: ArticleState, c: ArticleState, fs: set<Field>, gs: set<Field>)
    requires OnlyChanges(a, b, fs)
    requires OnlyChanges(b, c, gs)
    ensures OnlyChanges(a, c, fs + gs)
  {
  }

  /** What `save` puts into the bundle: the four search fields. */
  datatype SavedState = SavedState(
    isSearch: bool,
    searchQuery: Option<string>,
    searchResults: seq<Span>,
    searchPosition: Int32
  )

  /** `save`: records the search fields of `s`. */
  function Save(s: ArticleState): (saved: SavedState)
    ensures Restore(s, saved) == s
  {
    SavedState(s.isSearch, s.searchQuery, s.searchResults, s.searchPosition)
  }

  /** `restore`: a copy of the receiver `r` with the four saved search
      fields put back and every other field of `r` kept. */
  function Restore(r: ArticleState, saved: SavedState): (s: ArticleState)
    ensures s.isSearch == saved.isSearch
    ensures s.searchQuery == saved.searchQuery
    ensures s.searchResults == saved.searchResults
    ensures s.searchPosition == saved.searchPosition
    ensures OnlyChanges(r, s, SearchFields)
  {
    r.(isSearch := saved.isSearch, searchQuery := saved.searchQuery,
       searchResults := saved.searchResults, searchPosition := saved.searchPosition)
  }

  /** Restoring what was saved from `s` into any receiver `r` takes the
      search fields from `s` and everything else from `r`. */
  lemma RestoreSave(r: ArticleState, s: ArticleState)
    ensures forall f :: f in SearchFields ==> Agree(Restore(r, Save(s)), s, f)
    ensures forall f :: f !in SearchFields ==> Agree(Restore(r, Save(s)), r, f)
  {
  }

  /** The saved form of a restored state is exactly what was restored. */
  lemma SaveRestore(r: ArticleState, saved: SavedState)
    ensures Save(Restore(r, saved)) == saved
  {
  }

  /** The saved form determines the search fields: two states with the same
      saved form agree on every one of them. */
  lemma SaveDeterminesSearchFields(a: ArticleState, b: ArticleState)
    requires Save(a) == Save(b)
    ensures forall f :: f in SearchFields ==> Agree(a, b, f)
  {
  }
}
