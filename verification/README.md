# Skill-Articles: article screen state and preference delegate

A Dafny model of the two pieces of logic in the Skill-Articles Android app
that can be stated without the Android framework.

- **`ArticleViewModel`** aggregates the article header, the article body, the
  per-article personal info (like and bookmark) and the app settings (dark
  mode and big text) into one immutable `ArticleState` snapshot. It also
  translates user intents into updates of that snapshot: the menu toggle,
  hide and show, search mode, search, and moving the result cursor. Each
  update is a pure `copy(...)`. Here each is a function from view model to
  view model. The view model is the snapshot plus the private `menuIsShown`
  flag. Every transition states which fields it may change, using the
  `Field` vocabulary and the `OnlyChanges` predicate. `save` and `restore`
  carry the four search fields across a process restart.
- **`PrefDelegate`** binds a property to the preference store under the
  property's name. Reads dispatch on the runtime type of the delegate's
  default value, and writes dispatch on the type of the written value. Only
  Int, Long, Float, String and Boolean are accepted; anything else, `null`
  included, throws `IllegalStateException`. The store is a
  `map<string, Pref>` of typed entries.

Files:

| file | module |
|---|---|
| `wrappers.dfy` | `Wrappers`: `Option` (Kotlin nullable), `Result` (returns or throws) |
| `kotlin_ints.dfy` | `KotlinInts`: `Int`/`Long` ranges and 32-bit wrap-around |
| `kotlin_strings.dfy` | `KotlinStrings`: `String.length` in UTF-16 code units |
| `article_state.dfy` | `ArticleStates`: `ArticleState`, `Field`, `OnlyChanges`, `save`/`restore` |
| `article_view_model.dfy` | `ArticleViewModels`: intent handlers, source reducers, intent runs |
| `pref_delegate.dfy` | `PrefDelegates`: preference store, `getValue`/`setValue` |

Kotlin `Int` arithmetic is written out explicitly. `searchPosition.dec()`
and `.inc()` wrap at `Int.MIN_VALUE`/`Int.MAX_VALUE`, and the end offset
`it + query.length` of a search hit is an `Int` addition. `query.length`
counts UTF-16 code units, so a character outside the Basic Multilingual
Plane counts twice.

Two parameters stand in for code whose bodies are not part of this model:
- `indexesOf` (substring search over the first text block), an
  `IndexesOf` function parameter;
- `Date.format()`, the `format` parameter of the header reducer.

A typed read of a key that holds an entry of another type fails with
`ClassCast(key)`. This is the documented behaviour of Android's
`SharedPreferences` getters, whose code is not part of this model.

## Model

| member | source | states |
|---|---|---|
| `KotlinInts.Wrap` | app/src/main/java/ru/skillbranch/skillarticles/viewmodels/ArticleViewModel.kt:92-93 | the `Int` result of an addition is the unique 32-bit value congruent to the mathematical sum, and equals it when it is in range |
| `KotlinInts.Inc` | app/src/main/java/ru/skillbranch/skillarticles/viewmodels/ArticleViewModel.kt:172 | `inc()` adds one, and `Int.MAX_VALUE` wraps to `Int.MIN_VALUE` |
| `KotlinInts.Dec` | app/src/main/java/ru/skillbranch/skillarticles/viewmodels/ArticleViewModel.kt:167 | `dec()` subtracts one, and `Int.MIN_VALUE` wraps to `Int.MAX_VALUE` |
| `KotlinInts.IncDecInverse` | app/src/main/java/ru/skillbranch/skillarticles/viewmodels/ArticleViewModel.kt:166-176 | `inc` and `dec` undo each other on every `Int`, including the extremes |
| `KotlinStrings.Utf16Length` | app/src/main/java/ru/skillbranch/skillarticles/viewmodels/ArticleViewModel.kt:93 | `query.length` is at least the number of characters and at most twice it |
| `KotlinStrings.Utf16LengthCounts` | app/src/main/java/ru/skillbranch/skillarticles/viewmodels/ArticleViewModel.kt:93 | `query.length` equals the character count exactly when no character needs a surrogate pair, and twice it exactly when every character does |
| `ArticleStates.Save` | app/src/main/java/ru/skillbranch/skillarticles/viewmodels/ArticleViewModel.kt:204-213 | restoring its own save into a state gives back that state unchanged |
| `ArticleStates.Restore` | app/src/main/java/ru/skillbranch/skillarticles/viewmodels/ArticleViewModel.kt:215-222 | the four search fields come from the bundle; no other field of the receiver changes |
| `ArticleStates.RestoreSave` | app/src/main/java/ru/skillbranch/skillarticles/viewmodels/ArticleViewModel.kt:204-222 | `restore(save(s))` on any receiver `r` takes the search fields from `s` and every other field from `r` |
| `ArticleStates.SaveRestore` | app/src/main/java/ru/skillbranch/skillarticles/viewmodels/ArticleViewModel.kt:204-222 | saving a restored state gives back exactly the saved record, so nothing is lost in the round trip |
| `ArticleStates.SaveDeterminesSearchFields` | app/src/main/java/ru/skillbranch/skillarticles/viewmodels/ArticleViewModel.kt:204-213 | two states with the same saved form agree on every search field, so the bundle holds everything the search needs |
| `ArticleStates.NoChangeIsIdentity` | app/src/main/java/ru/skillbranch/skillarticles/viewmodels/ArticleViewModel.kt:179-202 | a state is determined by its 21 fields, so "no field changed" means "same state" |
| `ArticleViewModels.Fresh` | app/src/main/java/ru/skillbranch/skillarticles/viewmodels/ArticleViewModel.kt:18-20 | a new view model starts from the record defaults with the menu not remembered as shown, which satisfies the menu invariant |
| `ArticleViewModels.HandleToggleMenu` | app/src/main/java/ru/skillbranch/skillarticles/viewmodels/ArticleViewModel.kt:80-84 | the menu visibility flips, `menuIsShown` remembers the new visibility, and nothing else in the snapshot changes |
| `ArticleViewModels.HideMenu` | app/src/main/java/ru/skillbranch/skillarticles/viewmodels/ArticleViewModel.kt:150-152 | the menu is hidden, the remembered visibility is kept, and nothing else changes |
| `ArticleViewModels.ShowMenu` | app/src/main/java/ru/skillbranch/skillarticles/viewmodels/ArticleViewModel.kt:154-156 | the menu takes the remembered visibility, and nothing else changes |
| `ArticleViewModels.ToggleTwice` | app/src/main/java/ru/skillbranch/skillarticles/viewmodels/ArticleViewModel.kt:82 | two toggles give back the original snapshot and remember its original visibility |
| `ArticleViewModels.HideIdempotent` | app/src/main/java/ru/skillbranch/skillarticles/viewmodels/ArticleViewModel.kt:150-152 | hiding twice is hiding once |
| `ArticleViewModels.HideThenShowAfterToggle` | app/src/main/java/ru/skillbranch/skillarticles/viewmodels/ArticleViewModel.kt:150-156 | after a toggle, one hide followed by a show, or a show alone, gives back exactly the view model the toggle produced |
| `ArticleViewModels.HidesAndShowsOnlyMoveTheMenu` | app/src/main/java/ru/skillbranch/skillarticles/viewmodels/ArticleViewModel.kt:150-156 | any sequence of hides and shows changes only the menu visibility and keeps the remembered `menuIsShown` |
| `ArticleViewModels.HidesAndShowsAfterToggle` | app/src/main/java/ru/skillbranch/skillarticles/viewmodels/ArticleViewModel.kt:150-156 | after a toggle, any sequence of hides and shows followed by a show gives back exactly the view model the toggle produced |
| `ArticleViewModels.HandleSearchMode` | app/src/main/java/ru/skillbranch/skillarticles/viewmodels/ArticleViewModel.kt:86-88 | search mode is set, the menu is closed, the cursor is at 0, and no other field or the remembered visibility changes |
| `ArticleViewModels.SpansOf` | app/src/main/java/ru/skillbranch/skillarticles/viewmodels/ArticleViewModel.kt:92-93 | one pair per match index, in order, starting at the index and ending at the index plus the query length; each pair spans exactly the query length when the end does not overflow |
| `ArticleViewModels.HandleSearch` | app/src/main/java/ru/skillbranch/skillarticles/viewmodels/ArticleViewModel.kt:90-95 | a `null` query changes nothing; otherwise the query is recorded with one hit per match index in match order, each ending at the index plus the query's UTF-16 length, and only the query and results change |
| `ArticleViewModels.SearchCountsSurrogatePairs` | app/src/main/java/ru/skillbranch/skillarticles/viewmodels/ArticleViewModel.kt:93 | a one-character query outside the Basic Multilingual Plane found at offset 5 gives the hit (5, 7), because Kotlin counts it as two `Char`s |
| `ArticleViewModels.HandleSearchQuery` | app/src/main/java/ru/skillbranch/skillarticles/viewmodels/ArticleViewModel.kt:158-160 | only the query changes, to the given (possibly `null`) value |
| `ArticleViewModels.HandleIsSearch` | app/src/main/java/ru/skillbranch/skillarticles/viewmodels/ArticleViewModel.kt:162-164 | only the query changes, exactly as in `handleSearchQuery`; search mode itself is untouched |
| `ArticleViewModels.HandleUpResult` | app/src/main/java/ru/skillbranch/skillarticles/viewmodels/ArticleViewModel.kt:166-168 | the cursor goes down by exactly one (wrapping at `Int.MIN_VALUE`), with no clamping to the result list; nothing else changes |
| `ArticleViewModels.HandleDownResult` | app/src/main/java/ru/skillbranch/skillarticles/viewmodels/ArticleViewModel.kt:170-176 | the cursor goes up by exactly one (wrapping at `Int.MAX_VALUE`), with no clamping to the result list; nothing else changes |
| `ArticleViewModels.UpDownInverse` | app/src/main/java/ru/skillbranch/skillarticles/viewmodels/ArticleViewModel.kt:166-176 | up then down, and down then up, are the identity on the whole view model |
| `ArticleViewModels.OnArticleData` | app/src/main/java/ru/skillbranch/skillarticles/viewmodels/ArticleViewModel.kt:24-35 | a `null` article produces no update; otherwise exactly the six header fields are copied, the date formatted |
| `ArticleViewModels.OnContent` | app/src/main/java/ru/skillbranch/skillarticles/viewmodels/ArticleViewModel.kt:37-44 | a `null` body produces no update; otherwise the body is installed, loading ends, and nothing else changes |
| `ArticleViewModels.OnPersonalInfo` | app/src/main/java/ru/skillbranch/skillarticles/viewmodels/ArticleViewModel.kt:46-52 | `null` info produces no update; otherwise only bookmark and like change, to the info's values |
| `ArticleViewModels.OnSettings` | app/src/main/java/ru/skillbranch/skillarticles/viewmodels/ArticleViewModel.kt:54-60 | settings always update, and only dark mode and big text change |
| `ArticleViewModels.Reduce` | app/src/main/java/ru/skillbranch/skillarticles/viewmodels/ArticleViewModel.kt:24-60 | there is no update exactly when the nullable article, body or personal info is `null`; an update writes only that source's fields, and a body update ends loading |
| `ArticleViewModels.ReduceRoutes` | app/src/main/java/ru/skillbranch/skillarticles/viewmodels/ArticleViewModel.kt:24-60 | each source value goes to the reducer subscribed to its source, so the update carries that reducer's values |
| `ArticleViewModels.Deliver` | app/src/main/java/ru/skillbranch/skillarticles/viewmodels/ArticleViewModel.kt:24-60 | a delivery writes only the source's own fields and never touches the remembered menu visibility |
| `ArticleViewModels.DeliverInstallsUpdate` | app/src/main/java/ru/skillbranch/skillarticles/viewmodels/ArticleViewModel.kt:24-60 | a `null` value leaves the view model as it was; otherwise the reducer's update becomes the new snapshot |
| `ArticleViewModels.SourceAndSessionFieldsDisjoint` | app/src/main/java/ru/skillbranch/skillarticles/viewmodels/ArticleViewModel.kt:24-176 | no source writes a field that a user intent writes |
| `ArticleViewModels.DeliverKeepsMenuConsistent` | app/src/main/java/ru/skillbranch/skillarticles/viewmodels/ArticleViewModel.kt:24-60 | no source value opens the menu, so delivering one keeps the menu shown only when `menuIsShown` is set |
| `ArticleViewModels.StepOnlyChangesSessionFields` | app/src/main/java/ru/skillbranch/skillarticles/viewmodels/ArticleViewModel.kt:80-176 | every user intent changes only the menu and search fields |
| `ArticleViewModels.StepKeepsMenuConsistent` | app/src/main/java/ru/skillbranch/skillarticles/viewmodels/ArticleViewModel.kt:80-176 | every user intent keeps the menu shown only when the last toggle remembered it as shown |
| `ArticleViewModels.RunOnlyChangesSessionFields` | app/src/main/java/ru/skillbranch/skillarticles/viewmodels/ArticleViewModel.kt:80-176 | no sequence of user intents changes the header, body, personal info, settings or loading flags |
| `ArticleViewModels.RunKeepsMenuConsistent` | app/src/main/java/ru/skillbranch/skillarticles/viewmodels/ArticleViewModel.kt:80-176 | no sequence of user intents shows the menu unless `menuIsShown` is set |
| `ArticleViewModels.StillLoadingWithoutContent` | app/src/main/java/ru/skillbranch/skillarticles/viewmodels/ArticleViewModel.kt:179-202 | a fresh screen is loading with an empty body, and no sequence of user intents alone changes either |
| `ArticleViewModels.RunMovesCursor` | app/src/main/java/ru/skillbranch/skillarticles/viewmodels/ArticleViewModel.kt:166-176 | without a search-mode change, the handlers move the cursor exactly as the cursor-only reference `CursorRun` does: one step per up or down, wrapping each time |
| `ArticleViewModels.CursorRunNet` | app/src/main/java/ru/skillbranch/skillarticles/viewmodels/ArticleViewModel.kt:166-176 | wrapping after every single step is the same as wrapping once after the net number of steps |
| `ArticleViewModels.RunCursor` | app/src/main/java/ru/skillbranch/skillarticles/viewmodels/ArticleViewModel.kt:166-176 | without a search-mode change, the cursor ends at its start plus downs minus ups, modulo `Int` width |
| `ArticleViewModels.SourceCommutesWithIntent` | app/src/main/java/ru/skillbranch/skillarticles/viewmodels/ArticleViewModel.kt:24-95 | a source value and a user intent give the same view model in either order, except a new body against a search, which reads the body |
| `PrefDelegates.FromPref` | app/src/main/java/ru/skillbranch/skillarticles/data/delegates/PrefDelegate.kt:12-16 | a stored entry reads back as a primitive value of the entry's own type |
| `PrefDelegates.ToPref` | app/src/main/java/ru/skillbranch/skillarticles/data/delegates/PrefDelegate.kt:24-31 | exactly the five primitive types are storable, each as an entry of its own type that reads back as the same value |
| `PrefDelegates.ToPrefFromPref` | app/src/main/java/ru/skillbranch/skillarticles/data/delegates/PrefDelegate.kt:12-29 | reading an entry and storing the value again gives back the same entry |
| `PrefDelegates.GetValue` | app/src/main/java/ru/skillbranch/skillarticles/data/delegates/PrefDelegate.kt:9-19 | a non-primitive or `null` default throws `IllegalStateException`; otherwise the property-name key is read in the default's type, falling back to the default when the key is absent |
| `PrefDelegates.SetValue` | app/src/main/java/ru/skillbranch/skillarticles/data/delegates/PrefDelegate.kt:21-34 | a primitive value is written under the property name with its own type, and every other key is kept; `null` or another class throws, leaving the store unchanged |
| `PrefDelegates.GetValueReadsOnlyItsKey` | app/src/main/java/ru/skillbranch/skillarticles/data/delegates/PrefDelegate.kt:10 | a read depends only on the entry under the property's name |
| `PrefDelegates.SetThenGet` | app/src/main/java/ru/skillbranch/skillarticles/data/delegates/PrefDelegate.kt:9-34 | a written value reads back through any delegate whose default has the same type |
| `PrefDelegates.SetThenGetOtherType` | app/src/main/java/ru/skillbranch/skillarticles/data/delegates/PrefDelegate.kt:9-34 | reading a written value with a default of another primitive type fails with a class cast |
| `PrefDelegates.SetThenGetOther` | app/src/main/java/ru/skillbranch/skillarticles/data/delegates/PrefDelegate.kt:22 | a write is invisible to reads of every other property |
| `PrefDelegates.SetTwice` | app/src/main/java/ru/skillbranch/skillarticles/data/delegates/PrefDelegate.kt:21-34 | of two writes to the same property, the last one wins, also when the first write throws |

## Left out

- LiveData observation: `subscribeOnDataSource`, `updateState`, `currentState`, `notify` and the `BaseViewModel` they belong to are not part of this model. Each reducer is a pure function. `Deliver` keeps the snapshot when a reducer returns `null`, which is what the reducers' `null` return asks for.
- The repository calls are not modelled because their code is not part of this model. These are `getArticleContent`, `getArticleData`, `getArticlePersonalInfo`, and the settings and personal-info updates sent by `handleNightMode`, `handleUpText`, `handleDownText`, `handleBookmark` and `handleLike`.
- Notifications are not modelled. The message chosen in `handleBookmark` and `handleLike` reads the snapshot right after an asynchronous update, so the outcome depends on when observers run. `handleShare` only posts a fixed "not implemented" message.
- `toAppSettings`, `toArticlePersonalInfo`, `format` and `indexesOf` are not part of this model. `format` and `indexesOf` are parameters, and the other two are used only by the repository calls above.
- The declarations of `ArticleData`, `ArticlePersonalInfo`, `AppSettings`, `PrefManager` and `IViewModelState` are not part of this model. The data records carry only the fields the reducers read, with the types of the state fields they are copied into.
- `Bundle` is replaced by a record of the four search fields. The record also replaces the non-null casts in `restore`. Those casts would throw on a missing `isSearch`, `searchResults` or `searchPosition` key; only `searchQuery`, read with a safe cast, tolerates a missing key.
- `Log.d` is left out.
- `SharedPreferences` persistence and the asynchronous disk write of `apply()` are left out. The store is the in-memory map, and a successful write is committed at once.
- The unchecked `as T` casts on the result of `getValue` are left out. They are erased at run time.
- Kotlin strings holding an unpaired surrogate, such as `"\uD83D"` of length 1, are outside the model. A Dafny `string` holds only Unicode scalar values, so a query or body cannot contain a lone surrogate.
- `Float` values are kept as opaque 32-bit patterns, because nothing computes with them.
- `HandleSearch` states the end of each hit as the wrapped `Int` sum of the index and the query's UTF-16 length. `SpansOf` gives the exact width only when that sum does not overflow. Whether `indexesOf` only returns offsets of real matches, which would rule out overflow, is not part of this model.
