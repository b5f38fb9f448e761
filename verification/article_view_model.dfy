/** `ArticleViewModel`: the user-intent handlers and the data-source
    reducers of the article screen, each a pure update of an `ArticleState`.
    The view model's one piece of private state besides the snapshot is
    `menuIsShown`, the menu visibility chosen by the last toggle, which
    `showMenu` brings back after `hideMenu`. */
module ArticleViewModels {
  import opened Wrappers
  import opened KotlinInts
  import opened ArticleStates
  import opened KotlinStrings

  datatype ViewModel = ViewModel(state: ArticleState, menuIsShown: bool)

  /** The menu is never shown unless the last toggle chose to show it:
      hiding and search mode can close it, only a toggle or a
      `showMenu` can open it, and both open it to `menuIsShown`. */
  predicate MenuConsistent(vm: ViewModel) {
    vm.state.isShowMenu ==> vm.menuIsShown
  }

  /** A freshly created view model: the record's defaults and a menu not
      remembered as shown. */
  function Fresh(): (vm: ViewModel)
    ensures MenuConsistent(vm)
    ensures !vm.menuIsShown
    ensures OnlyChanges(Initial, vm.state, {})
  {
    ViewModel(Initial, false)
  }

  /** The substring search over the first text block; its body is not part
      of this model, so every operation that searches takes it as a
      parameter. */
  type IndexesOf = (Option<string>, string) -> seq<Int32>

  /** The fields the user-intent handlers may touch. */
  const SessionFields: set<Field> := {IsShowMenu, IsSearch, SearchQuery, SearchResults, SearchPosition}

  // ---------------------------------------------------------------- menu

  /** `handleToggleMenu`: flips the menu and remembers the new visibility. */
  function HandleToggleMenu(vm: ViewModel): (r: ViewModel)
    ensures r.state.isShowMenu != vm.state.isShowMenu
    ensures r.menuIsShown == r.state.isShowMenu
    ensures OnlyChanges(vm.state, r.state, {IsShowMenu})
  {
    var shown := !vm.state.isShowMenu;
    ViewModel(vm.state.(isShowMenu := shown), shown)
  }

  /** `hideMenu`: hides the menu without forgetting the toggled visibility. */
  function HideMenu(vm: ViewModel): (r: ViewModel)
    ensures !r.state.isShowMenu
    ensures r.menuIsShown == vm.menuIsShown
    ensures OnlyChanges(vm.state, r.state, {IsShowMenu})
  {
    vm.(state := vm.state.(isShowMenu := false))
  }

  /** `showMenu`: puts the menu back as the last toggle left it. */
  function ShowMenu(vm: ViewModel): (r: ViewModel)
    ensures r.state.isShowMenu == vm.menuIsShown
    ensures r.menuIsShown == vm.menuIsShown
    ensures OnlyChanges(vm.state, r.state, {IsShowMenu})
  {
    vm.(state := vm.state.(isShowMenu := vm.menuIsShown))
  }

  /** Toggling twice restores the snapshot; what is remembered afterwards
      is the visibility the snapshot started with. */
  lemma ToggleTwice(vm: ViewModel)
    ensures HandleToggleMenu(HandleToggleMenu(vm)).state == vm.state
    ensures HandleToggleMenu(HandleToggleMenu(vm)).menuIsShown == vm.state.isShowMenu
  {
  }

  /** Hiding is idempotent. */
  lemma HideIdempotent(vm: ViewModel)
    ensures HideMenu(HideMenu(vm)) == HideMenu(vm)
  {
  }

  /** After a toggle, one hide followed by a show, or a show alone, gives
      back exactly the view model the toggle produced. */
  lemma HideThenShowAfterToggle(vm: ViewModel)
    ensures ShowMenu(HideMenu(HandleToggleMenu(vm))) == HandleToggleMenu(vm)
    ensures ShowMenu(HandleToggleMenu(vm)) == HandleToggleMenu(vm)
  {
  }

  // -------------------------------------------------------------- search

  /** `handleSearchMode`: enters or leaves search mode, closing the menu and
      putting the result cursor on the first hit. */
  function HandleSearchMode(vm: ViewModel, isSearch: bool): (r: ViewModel)
    ensures r.state.isSearch == isSearch
    ensures !r.state.isShowMenu
    ensures r.state.searchPosition == 0
    ensures r.menuIsShown == vm.menuIsShown
    ensures OnlyChanges(vm.state, r.state, {IsSearch, IsShowMenu, SearchPosition})
  {
    vm.(state := vm.state.(isSearch := isSearch, isShowMenu := false, searchPosition := 0))
  }

  /** The first content element if it is text (`content.firstOrNull() as? String`). */
  function FirstText(content: seq<Item>): Option<string> {
    if |content| > 0 && content[0].Text? then Some(content[0].text) else None
  }

  /** The hit list of a search: each match index `i` becomes the pair
      `(i, i + len)`, the addition being Kotlin `Int` addition. */
  function SpansOf(hits: seq<Int32>, len: nat): (r: seq<Span>)
    ensures |r| == |hits|
    ensures forall k :: 0 <= k < |r| ==> r[k].start == hits[k] && r[k].end == Wrap(hits[k] + len)
    ensures forall k :: 0 <= k < |r| && hits[k] + len <= MAX_INT ==> r[k].end - r[k].start == len
  {
    if hits == [] then [] else [Span(hits[0], Wrap(hits[0] + len))] + SpansOf(hits[1..], len)
  }

  /** `handleSearch`: ignores a `null` query; otherwise records the query and
      the spans of its matches in the first text block, in match order. */
  function HandleSearch(vm: ViewModel, query: Option<string>, indexesOf: IndexesOf): (r: ViewModel)
    ensures query.None? ==> r == vm
    ensures query.Some? ==>
      var hits := indexesOf(FirstText(vm.state.content), query.value);
      && r.state.searchQuery == query
      && |r.state.searchResults| == |hits|
      && (forall k :: 0 <= k < |hits| ==>
            r.state.searchResults[k].start == hits[k]
            && r.state.searchResults[k].end == Wrap(hits[k] + Utf16Length(query.value)))
    ensures r.menuIsShown == vm.menuIsShown
    ensures OnlyChanges(vm.state, r.state, {SearchQuery, SearchResults})
  {
    match query
    case None => vm
    case Some(q) =>
      var hits := indexesOf(FirstText(vm.state.content), q);
      var results := SpansOf(hits, Utf16Length(q));
      vm.(state := vm.state.(searchQuery := Some(q), searchResults := results))
  }

  /** A query made of one character outside the Basic Multilingual Plane is
      two `Char`s long in Kotlin, so its hit at offset 5 ends at 7. */
  lemma SearchCountsSurrogatePairs(vm: ViewModel)
    ensures HandleSearch(vm, Some("\U{1F600}"), (text, q) => [5]).state.searchResults == [Span(5, 7)]
  {
    assert Utf16Length("\U{1F600}") == 2;
  }

  /** `handleSearchQuery`: records the typed query, searching nothing. */
  function HandleSearchQuery(vm: ViewModel, query: Option<string>): (r: ViewModel)
    ensures r.state.searchQuery == query
    ensures r.menuIsShown == vm.menuIsShown
    ensures OnlyChanges(vm.state, r.state, {SearchQuery})
  {
    vm.(state := vm.state.(searchQuery := query))
  }

  /** `handleIsSearch`: despite its name, also only records the query. */
  function HandleIsSearch(vm: ViewModel, query: Option<string>): (r: ViewModel)
    ensures r.state.searchQuery == query
    ensures r.menuIsShown == vm.menuIsShown
    ensures OnlyChanges(vm.state, r.state, {SearchQuery})
  {
    vm.(state := vm.state.(searchQuery := query))
  }

  /** `handleUpResult`: moves the cursor one hit back, with no clamping. */
  function HandleUpResult(vm: ViewModel): (r: ViewModel)
    ensures vm.state.searchPosition > MIN_INT ==> r.state.searchPosition == vm.state.searchPosition - 1
    ensures vm.state.searchPosition == MIN_INT ==> r.state.searchPosition == MAX_INT
    ensures r.menuIsShown == vm.menuIsShown
    ensures OnlyChanges(vm.state, r.state, {SearchPosition})
  {
    vm.(state := vm.state.(searchPosition := Dec(vm.state.searchPosition)))
  }

  /** `handleDownResult`: moves the cursor one hit forward, with no clamping. */
  function HandleDownResult(vm: ViewModel): (r: ViewModel)
    ensures vm.state.searchPosition < MAX_INT ==> r.state.searchPosition == vm.state.searchPosition + 1
    ensures vm.state.searchPosition == MAX_INT ==> r.state.searchPosition == MIN_INT
    ensures r.menuIsShown == vm.menuIsShown
    ensures OnlyChanges(vm.state, r.state, {SearchPosition})
  {
    vm.(state := vm.state.(searchPosition := Inc(vm.state.searchPosition)))
  }

  /** Up and down undo each other. */
  lemma UpDownInverse(vm: ViewModel)
    ensures HandleDownResult(HandleUpResult(vm)) == vm
    ensures HandleUpResult(HandleDownResult(vm)) == vm
  {
    IncDecInverse(vm.state.searchPosition);
  }

  // ----------------------------------------------------- data sources

  /** Wall-clock instant of publication; only `format` looks inside it. */
  datatype Instant = Instant(millis: int)

  /** The article header as the repository delivers it. */
  datatype ArticleData = ArticleData(
    shareLink: Option<string>,
    title: Option<string>,
    author: Option<Ref>,
    category: Option<string>,
    categoryIcon: Option<Ref>,
    date: Instant
  )

  datatype ArticlePersonalInfo = ArticlePersonalInfo(isLike: bool, isBookmark: bool)

  datatype AppSettings = AppSettings(isDarkMode: bool, isBigText: bool)

  /** The fields the header reducer writes. */
  const HeaderFields: set<Field> := {ShareLink, Title, Author, Category, CategoryIcon, Date}

  /** Reducer for the article header: `null` gives no update; otherwise the
      six header fields are copied, the date through `format`. */
  function OnArticleData(article: Option<ArticleData>, s: ArticleState, format: Instant -> string): (r: Option<ArticleState>)
    ensures r.Some? <==> article.Some?
    ensures r.Some? ==>
      && r.value.shareLink == article.value.shareLink
      && r.value.title == article.value.title
      && r.value.author == article.value.author
      && r.value.category == article.value.category
      && r.value.categoryIcon == article.value.categoryIcon
      && r.value.date == Some(format(article.value.date))
      && OnlyChanges(s, r.value, HeaderFields)
  {
    match article
    case None => None
    case Some(a) =>
      Some(s.(shareLink := a.shareLink, title := a.title, author := a.author,
              category := a.category, categoryIcon := a.categoryIcon,
              date := Some(format(a.date))))
  }

  /** Reducer for the article body: `null` gives no update; otherwise the
      body is installed and loading is over. */
  function OnContent(content: Option<seq<Item>>, s: ArticleState): (r: Option<ArticleState>)
    ensures r.Some? <==> content.Some?
    ensures r.Some? ==> r.value.content == content.value && !r.value.isLoadingContent
    ensures r.Some? ==> OnlyChanges(s, r.value, {Content, IsLoadingContent})
  {
    match content
    case None => None
    case Some(c) => Some(s.(isLoadingContent := false, content := c))
  }

  /** Reducer for the per-article personal info: `null` gives no update. */
  function OnPersonalInfo(info: Option<ArticlePersonalInfo>, s: ArticleState): (r: Option<ArticleState>)
    ensures r.Some? <==> info.Some?
    ensures r.Some? ==> r.value.isBookmark == info.value.isBookmark && r.value.isLike == info.value.isLike
    ensures r.Some? ==> OnlyChanges(s, r.value, {IsBookmark, IsLike})
  {
    match info
    case None => None
    case Some(i) => Some(s.(isBookmark := i.isBookmark, isLike := i.isLike))
  }

  /** Reducer for the app settings, which are never `null`. */
  function OnSettings(settings: AppSettings, s: ArticleState): (r: Option<ArticleState>)
    ensures r.Some?
    ensures r.value.isDarkMode == settings.isDarkMode && r.value.isBigText == settings.isBigText
    ensures OnlyChanges(s, r.value, {IsDarkMode, IsBigText})
  {
    Some(s.(isDarkMode := settings.isDarkMode, isBigText := settings.isBigText))
  }

  /** A value emitted by one of the four observed sources. */
  datatype SourceEvent =
    | ArticleLoaded(article: Option<ArticleData>)
    | ContentLoaded(content: Option<seq<Item>>)
    | PersonalInfoLoaded(info: Option<ArticlePersonalInfo>)
    | SettingsLoaded(settings: AppSettings)

  /** The source emitted `null`. */
  predicate IsNull(e: SourceEvent) {
    match e
    case ArticleLoaded(a) => a.None?
    case ContentLoaded(c) => c.None?
    case PersonalInfoLoaded(i) => i.None?
    case SettingsLoaded(_) => false
  }

  /** The fields the reducer for `e` may write. */
  function SourceFields(e: SourceEvent): set<Field> {
    match e
    case ArticleLoaded(_) => HeaderFields
    case ContentLoaded(_) => {Content, IsLoadingContent}
    case PersonalInfoLoaded(_) => {IsBookmark, IsLike}
    case SettingsLoaded(_) => {IsDarkMode, IsBigText}
  }

  /** The reducer subscribed to the source that emitted `e`. */
  function Reduce(e: SourceEvent, s: ArticleState, format: Instant -> string): (r: Option<ArticleState>)
    ensures r.None? <==> IsNull(e)
    ensures r.Some? ==> OnlyChanges(s, r.value, SourceFields(e))
    ensures r.Some? && e.ContentLoaded? ==> !r.value.isLoadingContent
  {
    match e
    case ArticleLoaded(a) => OnArticleData(a, s, format)
    case ContentLoaded(c) => OnContent(c, s)
    case PersonalInfoLoaded(i) => OnPersonalInfo(i, s)
    case SettingsLoaded(st) => OnSettings(st, s)
  }

  /** Delivering a source value: a `null` reducer result leaves the snapshot
      as it was; the remembered menu visibility is never touched. */
  function Deliver(vm: ViewModel, e: SourceEvent, format: Instant -> string): (r: ViewModel)
    ensures r.menuIsShown == vm.menuIsShown
    ensures OnlyChanges(vm.state, r.state, SourceFields(e))
  {
    var update := Reduce(e, vm.state, format);
    if update.None? then vm else vm.(state := update.value)
  }

  /** Each source value goes to the reducer subscribed to its source. */
  lemma ReduceRoutes(e: SourceEvent, s: ArticleState, format: Instant -> string)
    ensures e.ArticleLoaded? ==> Reduce(e, s, format) == OnArticleData(e.article, s, format)
    ensures e.ContentLoaded? ==> Reduce(e, s, format) == OnContent(e.content, s)
    ensures e.PersonalInfoLoaded? ==> Reduce(e, s, format) == OnPersonalInfo(e.info, s)
    ensures e.SettingsLoaded? ==> Reduce(e, s, format) == OnSettings(e.settings, s)
  {
  }

  /** Delivering installs the reducer's update as the new snapshot, and a
      `null` value leaves the whole view model as it was. */
  lemma DeliverInstallsUpdate(vm: ViewModel, e: SourceEvent, format: Instant -> string)
    ensures IsNull(e) ==> Deliver(vm, e, format) == vm
    ensures !IsNull(e) ==> Reduce(e, vm.state, format) == Some(Deliver(vm, e, format).state)
  {
  }

  /** No source writes a field that a user intent writes. */
  lemma SourceAndSessionFieldsDisjoint(e: SourceEvent)
    ensures SourceFields(e) !! SessionFields
  {
  }

  /** No source value opens or closes the menu, so delivering one keeps the
      menu consistent with the remembered visibility. */
  lemma DeliverKeepsMenuConsistent(vm: ViewModel, e: SourceEvent, format: Instant -> string)
    requires MenuConsistent(vm)
    ensures MenuConsistent(Deliver(vm, e, format))
  {
    var r := Deliver(vm, e, format);
    assert IsShowMenu !in SourceFields(e);
  }

  // ------------------------------------------------------ intent traces

  /** A user intent, one per handler. */
  datatype Intent =
    | Toggle
    | SetSearchMode(isSearch: bool)
    | SearchFor(query: Option<string>)
    | Hide
    | Show
    | TypeQuery(query: Option<string>)
    | SetIsSearch(query: Option<string>)
    | Up
    | Down

  /** The handler of intent `i`. */
  function Step(vm: ViewModel, i: Intent, indexesOf: IndexesOf): ViewModel {
    match i
    case Toggle => HandleToggleMenu(vm)
    case SetSearchMode(b) => HandleSearchMode(vm, b)
    case SearchFor(q) => HandleSearch(vm, q, indexesOf)
    case Hide => HideMenu(vm)
    case Show => ShowMenu(vm)
    case TypeQuery(q) => HandleSearchQuery(vm, q)
    case SetIsSearch(q) => HandleIsSearch(vm, q)
    case Up => HandleUpResult(vm)
    case Down => HandleDownResult(vm)
  }

  /** Every user intent changes only the menu and search fields. */
  lemma StepOnlyChangesSessionFields(vm: ViewModel, i: Intent, indexesOf: IndexesOf)
    ensures OnlyChanges(vm.state, Step(vm, i, indexesOf).state, SessionFields)
  {
  }

  /** Every user intent keeps the menu consistent with the remembered
      visibility: only a toggle or a show opens it, and both open it to
      `menuIsShown`. */
  lemma StepKeepsMenuConsistent(vm: ViewModel, i: Intent, indexesOf: IndexesOf)
    requires MenuConsistent(vm)
    ensures MenuConsistent(Step(vm, i, indexesOf))
  {
  }

  /** Handling `intents` one after another. */
  function Run(vm: ViewModel, intents: seq<Intent>, indexesOf: IndexesOf): ViewModel
    decreases |intents|
  {
    if intents == [] then vm else Run(Step(vm, intents[0], indexesOf), intents[1..], indexesOf)
  }

  /** No sequence of user intents touches the article, its body, the
      personal info or the settings: only the session fields can change. */
  lemma {:induction false} RunOnlyChangesSessionFields(vm: ViewModel, intents: seq<Intent>, indexesOf: IndexesOf)
    ensures OnlyChanges(vm.state, Run(vm, intents, indexesOf).state, SessionFields)
    decreases |intents|
  {
    if intents != [] {
      var next := Step(vm, intents[0], indexesOf);
      StepOnlyChangesSessionFields(vm, intents[0], indexesOf);
      RunOnlyChangesSessionFields(next, intents[1..], indexesOf);
      OnlyChangesTrans(vm.state, next.state, Run(vm, intents, indexesOf).state, SessionFields, SessionFields);
    }
  }

  /** Every sequence of user intents keeps the menu consistent with the
      remembered visibility. */
  lemma {:induction false} RunKeepsMenuConsistent(vm: ViewModel, intents: seq<Intent>, indexesOf: IndexesOf)
    requires MenuConsistent(vm)
    ensures MenuConsistent(Run(vm, intents, indexesOf))
    decreases |intents|
  {
    if intents != [] {
      StepKeepsMenuConsistent(vm, intents[0], indexesOf);
      RunKeepsMenuConsistent(Step(vm, intents[0], indexesOf), intents[1..], indexesOf);
    }
  }

  /** A fresh screen shows the loading state with an empty body, and no
      sequence of user intents ends it: only the body arriving does. */
  lemma StillLoadingWithoutContent(intents: seq<Intent>, indexesOf: IndexesOf)
    ensures Run(Fresh(), intents, indexesOf).state.isLoadingContent
    ensures Run(Fresh(), intents, indexesOf).state.content == []
  {
    RunOnlyChangesSessionFields(Fresh(), intents, indexesOf);
    assert Agree(Fresh().state, Run(Fresh(), intents, indexesOf).state, IsLoadingContent);
    assert Agree(Fresh().state, Run(Fresh(), intents, indexesOf).state, Content);
  }

  /** `intents` is made of hides and shows only. */
  predicate OnlyHidesAndShows(intents: seq<Intent>) {
    forall k :: 0 <= k < |intents| ==> intents[k].Hide? || intents[k].Show?
  }

  /** Hides and shows change the menu visibility and nothing else, the
      remembered visibility included. */
  lemma {:induction false} HidesAndShowsOnlyMoveTheMenu(vm: ViewModel, intents: seq<Intent>, indexesOf: IndexesOf)
    requires OnlyHidesAndShows(intents)
    ensures Run(vm, intents, indexesOf).menuIsShown == vm.menuIsShown
    ensures OnlyChanges(vm.state, Run(vm, intents, indexesOf).state, {IsShowMenu})
    decreases |intents|
  {
    if intents != [] {
      var next := Step(vm, intents[0], indexesOf);
      assert intents[0].Hide? || intents[0].Show?;
      assert next.menuIsShown == vm.menuIsShown && OnlyChanges(vm.state, next.state, {IsShowMenu});
      assert OnlyHidesAndShows(intents[1..]) by {
        forall k | 0 <= k < |intents[1..]| ensures intents[1..][k].Hide? || intents[1..][k].Show? {
          assert intents[1..][k] == intents[k + 1];
        }
      }
      assert Run(vm, intents, indexesOf) == Run(next, intents[1..], indexesOf);
      HidesAndShowsOnlyMoveTheMenu(next, intents[1..], indexesOf);
      OnlyChangesTrans(vm.state, next.state, Run(vm, intents, indexesOf).state, {IsShowMenu}, {IsShowMenu});
    }
  }

  /** After a toggle, however many hides and shows happen, `showMenu`
      restores exactly the view model the toggle produced. */
  lemma HidesAndShowsAfterToggle(vm: ViewModel, intents: seq<Intent>, indexesOf: IndexesOf)
    requires OnlyHidesAndShows(intents)
    ensures ShowMenu(Run(HandleToggleMenu(vm), intents, indexesOf)) == HandleToggleMenu(vm)
  {
    var toggled := HandleToggleMenu(vm);
    var shown := ShowMenu(Run(toggled, intents, indexesOf));
    HidesAndShowsOnlyMoveTheMenu(toggled, intents, indexesOf);
    OnlyChangesTrans(toggled.state, Run(toggled, intents, indexesOf).state, shown.state, {IsShowMenu}, {IsShowMenu});
    assert Agree(toggled.state, shown.state, IsShowMenu);
    assert OnlyChanges(toggled.state, shown.state, {}) by {
      forall f ensures Agree(toggled.state, shown.state, f) {
        if f != IsShowMenu {
          assert f !in {IsShowMenu};
        }
      }
    }
    NoChangeIsIdentity(toggled.state, shown.state);
  }

  /** `intents` only moves the cursor or leaves it alone: no search-mode
      change resets it. */
  predicate NoReset(intents: seq<Intent>) {
    forall i | i in intents :: !i.SetSearchMode?
  }

  lemma NoResetTail(intents: seq<Intent>)
    requires NoReset(intents) && intents != []
    ensures !intents[0].SetSearchMode? && NoReset(intents[1..])
  {
    assert intents[0] in intents;
    forall i | i in intents[1..] ensures !i.SetSearchMode? {
      assert i in intents;
    }
  }

  /** How far one intent moves the cursor down. */
  function CursorMove(i: Intent): int {
    match i
    case Down => 1
    case Up => -1
    case _ => 0
  }

  /** Net number of downward moves in `intents`. */
  function NetDown(intents: seq<Intent>): int
    decreases |intents|
  {
    if intents == [] then 0 else CursorMove(intents[0]) + NetDown(intents[1..])
  }

  lemma WrapShift(x: int, d: int)
    ensures Wrap(Wrap(x) + d) == Wrap(x + d)
  {
  }

  /** Intents other than up, down and a search-mode change leave the
      cursor where it is. */
  lemma StepKeepsCursor(vm: ViewModel, i: Intent, indexesOf: IndexesOf)
    requires !i.SetSearchMode? && !i.Up? && !i.Down?
    ensures Step(vm, i, indexesOf).state.searchPosition == vm.state.searchPosition
  {
    match i
    case Toggle =>
    case SearchFor(q) => assert Agree(vm.state, HandleSearch(vm, q, indexesOf).state, SearchPosition);
    case Hide =>
    case Show =>
    case TypeQuery(_) =>
    case SetIsSearch(_) =>
  }

  /** One intent other than a search-mode change moves the cursor by its
      `CursorMove`, modulo `Int` width. */
  lemma StepCursor(vm: ViewModel, i: Intent, indexesOf: IndexesOf)
    requires !i.SetSearchMode?
    ensures Step(vm, i, indexesOf).state.searchPosition == Wrap(vm.state.searchPosition + CursorMove(i))
  {
    var p := vm.state.searchPosition;
    if i.Down? {
      assert Step(vm, i, indexesOf).state.searchPosition == Inc(p);
    } else if i.Up? {
      assert Step(vm, i, indexesOf).state.searchPosition == Dec(p);
    } else {
      StepKeepsCursor(vm, i, indexesOf);
      assert Wrap(p + CursorMove(i)) == p;
    }
  }

  /** The cursor alone, driven by `intents`: one `CursorMove` per intent,
      each wrapped to `Int` width. */
  function CursorRun(p: Int32, intents: seq<Intent>): Int32
    decreases |intents|
  {
    if intents == [] then p else CursorRun(Wrap(p + CursorMove(intents[0])), intents[1..])
  }

  /** Without a search-mode change, running the handlers moves the cursor
      exactly as `CursorRun` does. */
  lemma {:induction false} RunMovesCursor(vm: ViewModel, intents: seq<Intent>, indexesOf: IndexesOf)
    requires NoReset(intents)
    ensures Run(vm, intents, indexesOf).state.searchPosition == CursorRun(vm.state.searchPosition, intents)
    decreases |intents|
  {
    if intents != [] {
      NoResetTail(intents);
      StepCursor(vm, intents[0], indexesOf);
      RunMovesCursor(Step(vm, intents[0], indexesOf), intents[1..], indexesOf);
    }
  }

  /** Wrapping after every move is wrapping once after the net move. */
  lemma {:induction false} CursorRunNet(p: Int32, intents: seq<Intent>)
    ensures CursorRun(p, intents) == Wrap(p + NetDown(intents))
    decreases |intents|
  {
    if intents != [] {
      var m, d := CursorMove(intents[0]), NetDown(intents[1..]);
      CursorRunNet(Wrap(p + m), intents[1..]);
      WrapShift(p + m, d);
      assert p + m + d == p + NetDown(intents);
    }
  }

  /** Without a search-mode change, the cursor ends at its start position
      plus the downward moves minus the upward ones, modulo `Int` width. */
  lemma RunCursor(vm: ViewModel, intents: seq<Intent>, indexesOf: IndexesOf)
    requires NoReset(intents)
    ensures Run(vm, intents, indexesOf).state.searchPosition == Wrap(vm.state.searchPosition + NetDown(intents))
  {
    RunMovesCursor(vm, intents, indexesOf);
    CursorRunNet(vm.state.searchPosition, intents);
  }

  /** Source values and user intents commute, with one exception: a search
      reads the body, so it does not commute with a new body arriving. */
  lemma SourceCommutesWithIntent(vm: ViewModel, e: SourceEvent, i: Intent, indexesOf: IndexesOf, format: Instant -> string)
    requires !(e.ContentLoaded? && i.SearchFor?)
    ensures Step(Deliver(vm, e, format), i, indexesOf) == Deliver(Step(vm, i, indexesOf), e, format)
  {
    match e
    case ArticleLoaded(_) => HeaderCommutes(vm, e, i, indexesOf, format);
    case ContentLoaded(_) => ContentCommutes(vm, e, i, indexesOf, format);
    case PersonalInfoLoaded(_) => PersonalInfoCommutes(vm, e, i, indexesOf, format);
    case SettingsLoaded(_) => SettingsCommutes(vm, e, i, indexesOf, format);
  }

  // One case of `SourceCommutesWithIntent` per source, kept apart so that
  // each proof stays small.

  lemma HeaderCommutes(vm: ViewModel, e: SourceEvent, i: Intent, indexesOf: IndexesOf, format: Instant -> string)
    requires e.ArticleLoaded?
    ensures Step(Deliver(vm, e, format), i, indexesOf) == Deliver(Step(vm, i, indexesOf), e, format)
  {
  }

  lemma ContentCommutes(vm: ViewModel, e: SourceEvent, i: Intent, indexesOf: IndexesOf, format: Instant -> string)
    requires e.ContentLoaded?
    requires !i.SearchFor?
    ensures Step(Deliver(vm, e, format), i, indexesOf) == Deliver(Step(vm, i, indexesOf), e, format)
  {
  }

  lemma PersonalInfoCommutes(vm: ViewModel, e: SourceEvent, i: Intent, indexesOf: IndexesOf, format: Instant -> string)
    requires e.PersonalInfoLoaded?
    ensures Step(Deliver(vm, e, format), i, indexesOf) == Deliver(Step(vm, i, indexesOf), e, format)
  {
  }

  lemma SettingsCommutes(vm: ViewModel, e: SourceEvent, i: Intent, indexesOf: IndexesOf, format: Instant -> string)
    requires e.SettingsLoaded?
    ensures Step(Deliver(vm, e, format), i, indexesOf) == Deliver(Step(vm, i, indexesOf), e, format)
  {
  }
}
