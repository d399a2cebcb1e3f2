# RAWG browser: a verified model of its list, search and detail logic

The RAWG browser is an iOS app over the RAWG game-database API. Its
screens list platforms and a platform's games, this month's new games, and
popular games, each of them filtered by genre. The app also searches games
by name, shows a game's detail page, and has a home screen with an
auto-scrolling banner. This project models the parts of the app that decide
something:

- the state machines of the view models: the filter, page and cursor
  handling of the platform-games list; the "select filter, fetch, replace"
  flow of the platform, new-games and popular-games screens; and the search
  screen;
- the ranking of search results;
- the detail screen's platform-icon and Metacritic-colour tables and the
  choice and order of its sections;
- the logic hidden in cells: info pills, removal of HTML tags, the five
  star rule, the genre chip selection, the banner's cyclic index, and the
  height of the three-column grid;
- genre equality by id.

Every object that the app updates in place is a Dafny `class` with the
same fields. Each asynchronous request is split in two:
- a method for the synchronous part of the Swift method, which returns the
  request it issues (`None` when it issues none);
- event methods for the `receiveValue` closure (`Receive…`) and the
  `receiveCompletion` closure (`Complete…`).

The network, JSON decoding and the Combine scheduler are not modelled. A
response is applied whenever its event method is called. As in the code,
there is no check that a response belongs to the latest request.

`selectGenreType` clears the list but does not guard against a load in
flight; `fetchPlatforms` ignores a call while loading
(`Platforms.DoubleFetchScenario`). `PlatformGames.StaleResponseScenario`
shows a late answer for an earlier genre being applied. `PlatformGames.NoPlatformScenario` shows a
genre choice with no platform configured leaving `isLoading` set for good.

Modules, one per Swift file:

| module | file |
|---|---|
| `Common` | Swift `Optional`, the completion event, ASCII `lowercased()`, `hasPrefix`, string order, `Int` interpolation |
| `GameModels` | the decoded record fields the core reads (Home/Model, GameDetail/Model, PlatformsPage/Model) |
| `GenreModel` | Genre/GameGenreModel.swift and the `GenreType` filter |
| `PlatformGames` | PlatformsPage/ViewModel/PlatformGamesViewModel.swift |
| `Platforms` | PlatformsPage/ViewModel/PlatformViewModel.swift |
| `NewGames` | NewGamePage/ViewModel/NewGameViewModel.swift |
| `PopularGames` | PopularGamePage/ViewModel/PopularGameViewModel.swift |
| `Search` | Home/ViewModel/SearchViewModel.swift |
| `GameDetail` | GameDetail/ViewModel/GameDetailViewModel.swift |
| `GameDetailCells` | GameDtail/View/TableView/GameDetailCell.swift |
| `PopularGenreList` | PopularGamePage/View/PopularGameViewCell.swift |
| `NewGameCells` | NewGamePage/View/NewGameViewCell.swift |
| `HomeCells` | Home/View/HomeViewCell.swift |

The search comparator ranks results in this order:
1. an exact case-insensitive name match;
2. a name that starts with the query;
3. within a tier, the later release string first when both results have
   one, and the higher rating first otherwise.

This comparator is not transitive (`Search.BeforeCycle`), so the model
does not claim a total order. The sort is written as an insertion sort
that uses the comparator. The model proves that the sort's result is a
permutation of its input and that it is ordered by match tier.

Methods named `…Scenario` are client code. Each one runs a short sequence
of calls on a fresh object and states the outcome.

## Model

| member | source | states |
|---|---|---|
| Common.Lower | Home/ViewModel/SearchViewModel.swift:69-70 | `lowercased()` keeps the length and lower-cases each ASCII capital, leaving every other character alone |
| Common.LexLessIrreflexive | Home/ViewModel/SearchViewModel.swift:84-85 | no release string is later than itself |
| Common.LexLessAsymmetric | Home/ViewModel/SearchViewModel.swift:84-85 | of two release strings at most one is the later |
| Common.DecimalRoundTrip | NewGamePage/ViewModel/NewGameViewModel.swift:73 | the decimal text of an `Int` reads back as the same number, negative numbers included |
| GameModels.ToListItem | Home/Model/GameListItemModel.swift:20-27 | a list item copies id, name, image, release date and platform names from the search result and wraps its rating |
| GameModels.ToListItems | PlatformsPage/ViewModel/PlatformGamesViewModel.swift:96 | mapping results to list items keeps their number and order, item by item |
| GenreModel.FromResult | Genre/GameGenreModel.swift:44-50 | a genre built from a decoded result copies id, name, slug, games count and image unchanged |
| GenreModel.FromResults | PlatformsPage/ViewModel/PlatformGamesViewModel.swift:50 | mapping results to genres keeps their number and order |
| GenreModel.SameIffSameId | Genre/GameGenreModel.swift:38-40 | two genres are `==` exactly when their ids are equal, whatever their names or slugs |
| GenreModel.SameIsEquivalence | Genre/GameGenreModel.swift:38-40 | genre `==` is reflexive, symmetric and transitive |
| GenreModel.SameIdResultsCompareEqual | Genre/GameGenreModel.swift:38-50 | genres built from two results with the same id compare equal |
| GenreModel.GenreTypesFor | PlatformsPage/ViewModel/PlatformGamesViewModel.swift:60 | the genre strip is `.all` followed by one `.genre` per genre, in order, one longer than the genre list |
| GenreModel.GenreTypesForWellFormed | PopularGamePage/ViewModel/PopularGameViewModel.swift:50 | a built strip starts with `.all` and holds only genres after it |
| PlatformGames.PageRequestFor | PlatformsPage/ViewModel/PlatformGamesViewModel.swift:109-122 | no request without a platform; otherwise the current page of 20 for the platform, all games for `.all` and the genre's id for `.genre` |
| PlatformGames.MergePage | PlatformsPage/ViewModel/PlatformGamesViewModel.swift:138-143 | page 1 replaces the list; a later page keeps the old list as an unchanged prefix and appends the new items after it |
| PlatformGames.PlatformGamesViewModel.constructor | PlatformsPage/ViewModel/PlatformGamesViewModel.swift:12-25 | empty lists, `.all` selected, no platform, page 1, more data expected, no cursor |
| PlatformGames.PlatformGamesViewModel.Configure | PlatformsPage/ViewModel/PlatformGamesViewModel.swift:31-34 | remembers the platform and starts the genres load |
| PlatformGames.PlatformGamesViewModel.FetchGenres | PlatformsPage/ViewModel/PlatformGamesViewModel.swift:36-45 | loading starts and the error clears; a URL that does not parse ends loading with the bad-URL message |
| PlatformGames.PlatformGamesViewModel.ReceiveGenres | PlatformsPage/ViewModel/PlatformGamesViewModel.swift:59-62 | the strip becomes `.all` plus the genres, then the current page of the selection is requested |
| PlatformGames.PlatformGamesViewModel.CompleteGenres | PlatformsPage/ViewModel/PlatformGamesViewModel.swift:53-58 | loading ends; only a failure sets the error |
| PlatformGames.PlatformGamesViewModel.SelectGenreType | PlatformsPage/ViewModel/PlatformGamesViewModel.swift:67-74 | sets the selection, page 1, an empty list, more data expected and loading, leaves the cursor, and requests page 1 of the new selection (none without a platform) |
| PlatformGames.PlatformGamesViewModel.LoadMoreGames | PlatformsPage/ViewModel/PlatformGamesViewModel.swift:76-107 | a complete no-op while either load runs or no data is left; else follows the cursor without touching the page, or advances the page by exactly one (so past page 1) and requests it, with both loading flags set |
| PlatformGames.PlatformGamesViewModel.ReceiveNextPage | PlatformsPage/ViewModel/PlatformGamesViewModel.swift:95-100 | the cursor page's items are appended after the old list; cursor and `hasMoreData` follow `next` |
| PlatformGames.PlatformGamesViewModel.CompleteNextPage | PlatformsPage/ViewModel/PlatformGamesViewModel.swift:86-94 | clears only `isLoadingMore`; a failure sets the error and leaves the games alone |
| PlatformGames.PlatformGamesViewModel.FetchGamesForSelectedGenre | PlatformsPage/ViewModel/PlatformGamesViewModel.swift:109-123 | nothing without a platform; otherwise loading starts, the error clears and `PageRequestFor` is issued, for a page of at least 1 |
| PlatformGames.PlatformGamesViewModel.ReceivePage | PlatformsPage/ViewModel/PlatformGamesViewModel.swift:137-146 | the page is merged by `MergePage` on the page number at arrival; cursor and `hasMoreData` follow `next` |
| PlatformGames.PlatformGamesViewModel.CompletePage | PlatformsPage/ViewModel/PlatformGamesViewModel.swift:127-136 | clears both loading flags; a failure sets the error and leaves the games alone |
| PlatformGames.PlatformGamesViewModel.GamesCount | PlatformsPage/ViewModel/PlatformGamesViewModel.swift:151-153 | the count is the number of games |
| PlatformGames.PlatformGamesViewModel.GetGame | PlatformsPage/ViewModel/PlatformGamesViewModel.swift:155-158 | nil outside `[0, count)`, the game at the index inside it |
| PlatformGames.TwoPageScenario | PlatformsPage/ViewModel/PlatformGamesViewModel.swift:76-107 | a first page with `next` followed by the cursor page ends with both pages in order, no more data, and a blocked further load-more |
| PlatformGames.StaleResponseScenario | PlatformsPage/ViewModel/PlatformGamesViewModel.swift:137-146 | a late page for an earlier genre replaces the list of the newly selected one |
| PlatformGames.NoPlatformScenario | PlatformsPage/ViewModel/PlatformGamesViewModel.swift:110 | a genre choice before `configure` issues nothing and leaves loading set, which blocks load-more |
| Platforms.PlatformsOf | PlatformsPage/ViewModel/PlatformViewModel.swift:45 | a response shows its results, or nothing when they are absent |
| Platforms.PlatformViewModel.constructor | PlatformsPage/ViewModel/PlatformViewModel.swift:13-20 | no platforms, not loading, no error, page 1 of size 10 |
| Platforms.PlatformViewModel.FetchPlatforms | PlatformsPage/ViewModel/PlatformViewModel.swift:26-32 | a no-op while loading; otherwise loading starts, the error clears and page 1 of size 10 is requested |
| Platforms.PlatformViewModel.ReceivePlatforms | PlatformsPage/ViewModel/PlatformViewModel.swift:44-46 | the response's platforms replace the list, `[]` when absent |
| Platforms.PlatformViewModel.CompletePlatforms | PlatformsPage/ViewModel/PlatformViewModel.swift:35-43 | loading always ends; only a failure sets the error |
| Platforms.PlatformViewModel.PlatformsCount | PlatformsPage/ViewModel/PlatformViewModel.swift:51-53 | the count is the number of platforms |
| Platforms.PlatformViewModel.GetPlatform | PlatformsPage/ViewModel/PlatformViewModel.swift:55-58 | nil outside `[0, count)`, the platform at the index inside it |
| Platforms.DoubleFetchScenario | PlatformsPage/ViewModel/PlatformViewModel.swift:26-49 | a second fetch during the first issues nothing; after completion a fetch again asks for page 1 of size 10 |
| NewGames.GamesURL | NewGamePage/ViewModel/NewGameViewModel.swift:68-74 | the games URL is the base query for `.all` and the base query plus `&genres=<id>` for `.genre` |
| NewGames.GamesURLDistinguishesSelections | NewGamePage/ViewModel/NewGameViewModel.swift:68-74 | equal URLs come only from two `.all` selections or two genres with the same id |
| NewGames.NewGameViewModel.constructor | NewGamePage/ViewModel/NewGameViewModel.swift:12-16 | empty lists, `.all` selected, not loading, no error |
| NewGames.NewGameViewModel.FetchGenres | NewGamePage/ViewModel/NewGameViewModel.swift:20-29 | loading starts and the error clears; a bad genres URL ends loading with the bad-URL message |
| NewGames.NewGameViewModel.ReceiveGenres | NewGamePage/ViewModel/NewGameViewModel.swift:43-46 | the strip is `.all` plus the genres in order, one longer than the results, then the games URL of the selection is requested |
| NewGames.NewGameViewModel.CompleteGenres | NewGamePage/ViewModel/NewGameViewModel.swift:37-42 | loading ends; only a failure sets the error |
| NewGames.NewGameViewModel.SelectGenreType | NewGamePage/ViewModel/NewGameViewModel.swift:51-55 | sets the selection and loading, keeps games and error, and requests the selection's URL |
| NewGames.NewGameViewModel.FetchGamesForSelectedGenre | NewGamePage/ViewModel/NewGameViewModel.swift:57-79 | requests `GamesURL` of the selection; a bad URL sets the error and does not touch loading |
| NewGames.NewGameViewModel.ReceiveGames | NewGamePage/ViewModel/NewGameViewModel.swift:93-95 | the games replace the list, never extend it |
| NewGames.NewGameViewModel.CompleteGames | NewGamePage/ViewModel/NewGameViewModel.swift:87-92 | loading ends; only a failure sets the error |
| NewGames.BadURLScenario | NewGamePage/ViewModel/NewGameViewModel.swift:76-79 | a bad games URL leaves loading set while a bad genres URL clears it; both report the bad URL |
| PopularGames.GamesRequestFor | PopularGamePage/ViewModel/PopularGameViewModel.swift:59-66 | `.all` asks for all popular games, `.genre(g)` for those of `g`, both 20 per page |
| PopularGames.PopularGameViewModel.constructor | PopularGamePage/ViewModel/PopularGameViewModel.swift:13-18 | empty lists, `.all` selected, not loading, no error |
| PopularGames.PopularGameViewModel.FetchGenres | PopularGamePage/ViewModel/PopularGameViewModel.swift:27-31 | loading starts, the error clears and the genres are requested |
| PopularGames.PopularGameViewModel.ReceiveGenres | PopularGamePage/ViewModel/PopularGameViewModel.swift:40-44 | stores the genres, rebuilds the strip from them and requests the selection's games |
| PopularGames.PopularGameViewModel.UpdateGenreTypes | PopularGamePage/ViewModel/PopularGameViewModel.swift:49-51 | the strip is `.all` plus the stored genres, in order |
| PopularGames.PopularGameViewModel.CompleteGenres | PopularGamePage/ViewModel/PopularGameViewModel.swift:34-39 | loading ends; only a failure sets the error |
| PopularGames.PopularGameViewModel.SelectGenreType | PopularGamePage/ViewModel/PopularGameViewModel.swift:53-57 | sets the selection and loading, keeps games and error, and dispatches by `GamesRequestFor` |
| PopularGames.PopularGameViewModel.FetchGamesForSelectedGenre | PopularGamePage/ViewModel/PopularGameViewModel.swift:59-66 | the request is `GamesRequestFor` of the selection |
| PopularGames.PopularGameViewModel.ReceiveGames | PopularGamePage/ViewModel/PopularGameViewModel.swift:78-80 | the games replace the list on either path |
| PopularGames.PopularGameViewModel.CompleteGames | PopularGamePage/ViewModel/PopularGameViewModel.swift:72-77 | loading ends; only a failure sets the error, on either path |
| PopularGames.SelectBeforeGenresScenario | PopularGamePage/ViewModel/PopularGameViewModel.swift:53-66 | a genre chosen before the genres arrive is requested at once and again on their arrival; a failed games request keeps the shown games and reports the error |
| Search.Tier | Home/ViewModel/SearchViewModel.swift:69-82 | tier 0 exactly for a case-insensitive exact match, tier at most 1 exactly for a name starting with the query |
| Search.BeforeFollowsTiers | Home/ViewModel/SearchViewModel.swift:73-82 | across tiers the comparator always puts the lower tier first |
| Search.ExactMatchFirst | Home/ViewModel/SearchViewModel.swift:70-75 | an exact match goes before a non-match and never after it |
| Search.PrefixMatchNext | Home/ViewModel/SearchViewModel.swift:77-82 | with equal exact-match status, a name starting with the query goes first |
| Search.WithinTier | Home/ViewModel/SearchViewModel.swift:84-88 | within a tier, the later release string goes first when both have one, otherwise the higher rating |
| Search.BeforeIrreflexiveAsymmetric | Home/ViewModel/SearchViewModel.swift:68-89 | no result goes before itself, and never both ways |
| Search.BeforeCycle | Home/ViewModel/SearchViewModel.swift:84-88 | three results, one without a release date, go before each other in a cycle: the comparator is not transitive |
| Search.Insert | Home/ViewModel/SearchViewModel.swift:68 | one insertion step adds exactly the inserted result |
| Search.InsertTierSorted | Home/ViewModel/SearchViewModel.swift:68-82 | inserting with the comparator keeps a list ordered by tier |
| Search.SortSearchResults | Home/ViewModel/SearchViewModel.swift:67-90 | the ranked list holds exactly the input results, none added or dropped |
| Search.SortTierSorted | Home/ViewModel/SearchViewModel.swift:67-90 | the ranked list is ordered by match tier |
| Search.RankingOrder | Home/ViewModel/SearchViewModel.swift:69-82 | in the ranked list every exact match precedes every non-exact one, and every prefix match precedes every non-prefix one |
| Search.SearchViewModel.constructor | Home/ViewModel/SearchViewModel.swift:13-15 | no results, not loading, no error |
| Search.SearchViewModel.PerformSearch | Home/ViewModel/SearchViewModel.swift:39-47 | an empty query clears the results with no request and keeps the flags; another query sets loading, clears the error and is sent |
| Search.SearchViewModel.ReceiveResults | Home/ViewModel/SearchViewModel.swift:59-62 | the results become a tier-ordered permutation of the response |
| Search.SearchViewModel.CompleteSearch | Home/ViewModel/SearchViewModel.swift:50-58 | loading ends; only a failure sets the error |
| Search.ClearQueryScenario | Home/ViewModel/SearchViewModel.swift:39-62 | after a search, an empty query empties the results with no request |
| GameDetail.PlatformIcon | GameDetail/ViewModel/GameDetailViewModel.swift:77-102 | every platform name maps to one of the six icons |
| GameDetail.PlatformIconIgnoresCase | GameDetail/ViewModel/GameDetailViewModel.swift:78 | the icon of a name is the icon of its lower-cased form |
| GameDetail.ConsoleIcons | GameDetail/ViewModel/GameDetailViewModel.swift:81-88 | PlayStation 3/4/5 names and abbreviations show the PlayStation logo; the three Xbox names the Xbox logo |
| GameDetail.OtherDeviceIcons | GameDetail/ViewModel/GameDetailViewModel.swift:79-98 | iOS and Android show a phone, PC and Linux a desktop, Mac a laptop, Switch the controller |
| GameDetail.UnknownPlatformIcon | GameDetail/ViewModel/GameDetailViewModel.swift:99-100 | any other name shows the controller |
| GameDetail.MetacriticColorFor | GameDetail/ViewModel/GameDetailViewModel.swift:104-113 | green exactly for 75..100, yellow exactly for 50..74, red exactly for the rest, including above 100 and negatives |
| GameDetail.CellIdentifiersDistinct | GameDetail/ViewModel/GameDetailViewModel.swift:128-139 | no two sections share a reuse identifier, and each ends in "Cell" |
| GameDetail.GameDetailViewModel.constructor | GameDetail/ViewModel/GameDetailViewModel.swift:14-18 | no detail, no media, not loading, no error |
| GameDetail.GameDetailViewModel.FetchGameDetail | GameDetail/ViewModel/GameDetailViewModel.swift:28-32 | loading starts, the error clears and the detail of the game is requested |
| GameDetail.GameDetailViewModel.ReceiveGameDetail | GameDetail/ViewModel/GameDetailViewModel.swift:43-47 | the detail is stored and screenshots and movies of the same game are requested |
| GameDetail.GameDetailViewModel.CompleteGameDetail | GameDetail/ViewModel/GameDetailViewModel.swift:34-42 | loading ends; only a failure sets the error |
| GameDetail.GameDetailViewModel.ReceiveScreenshots | GameDetail/ViewModel/GameDetailViewModel.swift:57-59 | screenshots replace the list, `[]` when absent |
| GameDetail.GameDetailViewModel.ReceiveMovies | GameDetail/ViewModel/GameDetailViewModel.swift:69-71 | movies replace the list, `[]` when absent |
| GameDetail.GameDetailViewModel.VisibleCells | GameDetail/ViewModel/GameDetailViewModel.swift:142-163 | empty exactly without a detail; otherwise 5 to 8 sections starting carousel, rating, info and ending with developers |
| GameDetail.GameDetailViewModel.NumberOfCells | GameDetail/ViewModel/GameDetailViewModel.swift:165-167 | the number of visible sections: 0 without a detail, 5 to 8 with one |
| GameDetail.SectionsFor | GameDetail/ViewModel/GameDetailViewModel.swift:145-162 | the appended sections number 5 to 8, start with carousel, rating, info and end with developers |
| GameDetail.SectionsPresence | GameDetail/ViewModel/GameDetailViewModel.swift:147-159 | the description always appears; movies, screenshots and Metacritic appear exactly when their flag holds |
| GameDetail.SectionsOrdered | GameDetail/ViewModel/GameDetailViewModel.swift:118-126 | sections appear in strictly increasing declaration order, so never twice |
| GameDetail.VisibleCellsSections | GameDetail/ViewModel/GameDetailViewModel.swift:142-163 | a screen's sections show movies, screenshots and Metacritic exactly when those lists are non-empty, in declaration order |
| GameDetailCells.StripTags | GameDtail/View/TableView/GameDetailCell.swift:135 | removing the matches of `<[^>]+>` never makes the text longer |
| GameDetailCells.PillTexts | GameDtail/View/TableView/GameDetailCell.swift:118-132 | one text per pill, in the pills' order: "Released: d", "TBA", "ESRB: e", "Updated: d" |
| GameDetailCells.StripTagsWithoutAngle | GameDtail/View/TableView/GameDetailCell.swift:135 | a description without '<' is shown unchanged |
| GameDetailCells.StripTagsCharacters | GameDtail/View/TableView/GameDetailCell.swift:135 | removing tags adds no character |
| GameDetailCells.StripTagsKeepsOrder | GameDtail/View/TableView/GameDetailCell.swift:135 | the shown text is a subsequence of the description: kept characters keep their order |
| GameDetailCells.StripTagsKeepsPlainPrefix | GameDtail/View/TableView/GameDetailCell.swift:135 | text with no '<' before the rest is kept unchanged in front of the stripped rest |
| GameDetailCells.StripTagsAroundTag | GameDtail/View/TableView/GameDetailCell.swift:135 | a tag `<w>` (w non-empty, no '>') is removed and exactly it: the text before it and the stripped text after it survive |
| GameDetailCells.StripTagsKeepsLoneAngle | GameDtail/View/TableView/GameDetailCell.swift:135 | a '<' that starts no match (no '>' after it, or "<>") is kept |
| GameDetailCells.StripTagsLeavesNoTag | GameDtail/View/TableView/GameDetailCell.swift:135 | the shown text contains no further match of `<[^>]+>` |
| GameDetailCells.InfoPillsPresence | GameDtail/View/TableView/GameDetailCell.swift:118-132 | each pill appears exactly when its field is present, TBA exactly when `tba` is true |
| GameDetailCells.InfoPillsOrdered | GameDtail/View/TableView/GameDetailCell.swift:118-132 | pills come in the order Released, TBA, ESRB, Updated, at most four |
| GameDetailCells.GameInfoCell.constructor | GameDtail/View/TableView/GameDetailCell.swift:56 | no pills at first |
| GameDetailCells.GameInfoCell.Configure | GameDtail/View/TableView/GameDetailCell.swift:113-139 | nothing without a game; otherwise the pills are rebuilt from empty and the description shown without tags, or the placeholder |
| GameDetailCells.GameInfoCell.AppendPill | GameDtail/View/TableView/GameDetailCell.swift:119 | appending a pill's text extends the pill list by that pill |
| GameDetailCells.GameInfoCell.NumberOfItems | GameDtail/View/TableView/GameDetailCell.swift:147-149 | one item per pill |
| GameDetailCells.InfoReconfigureScenario | GameDtail/View/TableView/GameDetailCell.swift:113-139 | reconfiguring for a game without fields keeps no pill of the previous game |
| GameDetailCells.Truncate | GameDtail/View/TableView/GameDetailCell.swift:255 | `Int(rating)` truncates toward zero |
| GameDetailCells.FractionalPart | GameDtail/View/TableView/GameDetailCell.swift:256 | the remainder by 1 lies in (-1, 1) and is non-negative for a non-negative rating |
| GameDetailCells.StarsShape | GameDtail/View/TableView/GameDetailCell.swift:257-270 | filled stars form a prefix, followed by at most one half star, then empty ones |
| GameDetailCells.StarValueCounts | GameDtail/View/TableView/GameDetailCell.swift:255-270 | the first n stars show min(n, whole part) plus a half when the fraction is at least 0.5 and room is left |
| GameDetailCells.StarsShowRatingToHalf | GameDtail/View/TableView/GameDetailCell.swift:255-270 | for ratings 0 to 5 the stars show the rating rounded down to a half |
| GameDetailCells.RatingCell.constructor | GameDtail/View/TableView/GameDetailCell.swift:227-235 | five empty yellow stars |
| GameDetailCells.RatingCell.Configure | GameDtail/View/TableView/GameDetailCell.swift:237-252 | nothing without a game; a rating is shown and drawn, a missing one reads "N/A" and leaves the stars; the count reads "<n> ratings" or "No ratings" |
| GameDetailCells.RatingCell.UpdateStars | GameDtail/View/TableView/GameDetailCell.swift:254-271 | every star view is redrawn by the star rule |
| GameDetailCells.RatingScenario | GameDtail/View/TableView/GameDetailCell.swift:237-271 | a 3.6 rating draws three full stars, a half and an empty one; a later missing rating keeps them |
| PopularGenreList.MatchesSelectionIsGenreEquality | PopularGamePage/View/PopularGameViewCell.swift:66-73 | `.all` matches only `.all`, and genres match exactly when they are `==` (same id) |
| PopularGenreList.FirstMatch | PopularGamePage/View/PopularGameViewCell.swift:65-74 | the first matching position, or none when nothing matches |
| PopularGenreList.SelectedIndexFor | PopularGamePage/View/PopularGameViewCell.swift:64-74 | the first match when one exists, 0 otherwise |
| PopularGenreList.PopularGenreListCell.constructor | PopularGamePage/View/PopularGameViewCell.swift:21-22 | no chips, index 0 |
| PopularGenreList.PopularGenreListCell.Configure | PopularGamePage/View/PopularGameViewCell.swift:61-78 | the chips are replaced; a given selection sets the index to its first match or 0, no selection keeps the old index |
| PopularGenreList.PopularGenreListCell.NumberOfItems | PopularGamePage/View/PopularGameViewCell.swift:82-84 | one item per chip |
| PopularGenreList.PopularGenreListCell.DidSelectItemAt | PopularGamePage/View/PopularGameViewCell.swift:102-106 | reports the tapped chip and makes it the only one drawn selected |
| PopularGenreList.AtMostOneRenderedSelected | PopularGamePage/View/PopularGameViewCell.swift:98 | at most one chip is drawn selected |
| PopularGenreList.ConfigureScenario | PopularGamePage/View/PopularGameViewCell.swift:61-78 | a renamed genre still selects its chip; a later unselected configure keeps the index past the end |
| NewGameCells.RowsIsCeiling | NewGamePage/View/NewGameViewCell.swift:146 | the row count is the ceiling of the game count over three |
| NewGameCells.GridHeightClosedForm | NewGamePage/View/NewGameViewCell.swift:146-149 | the height is 176 per row plus 16, so an empty grid is 16 points |
| NewGameCells.GridHeightMonotone | NewGamePage/View/NewGameViewCell.swift:146-149 | more games never give a shorter grid |
| NewGameCells.GridHeightStep | NewGamePage/View/NewGameViewCell.swift:146-149 | one more game changes the height exactly when the count was a multiple of three, by 176 |
| NewGameCells.GenreListCell.constructor | NewGamePage/View/NewGameViewCell.swift:21 | no genres at first |
| NewGameCells.GenreListCell.Configure | NewGamePage/View/NewGameViewCell.swift:60-63 | the genres are replaced |
| NewGameCells.GenreListCell.NumberOfItems | NewGamePage/View/NewGameViewCell.swift:67-69 | one item per genre |
| NewGameCells.GenreListCell.RenderedSelected | NewGamePage/View/NewGameViewCell.swift:74 | a freshly built chip is drawn selected exactly at index 0 |
| NewGameCells.GenreListCell.DidSelectItemAt | NewGamePage/View/NewGameViewCell.swift:78-81 | reports the tapped genre |
| NewGameCells.GameListCell.constructor | NewGamePage/View/NewGameViewCell.swift:131-140 | no games and a height of 100 |
| NewGameCells.GameListCell.Configure | NewGamePage/View/NewGameViewCell.swift:142-152 | the games are replaced and the height becomes the grid height of their number |
| NewGameCells.GameListCell.NumberOfItems | NewGamePage/View/NewGameViewCell.swift:156-158 | one item per game |
| NewGameCells.GameListCell.DidSelectItemAt | NewGamePage/View/NewGameViewCell.swift:166-170 | reports the tapped game |
| NewGameCells.GridScenario | NewGamePage/View/NewGameViewCell.swift:142-152 | seven games need 544 points; an empty list afterwards 16 |
| HomeCells.FirstIndexOf | Home/View/HomeViewCell.swift:135 | the first position of an equal game, none exactly when the game is absent |
| HomeCells.BannerTagIsValid | Home/View/HomeViewCell.swift:135 | every banner's tag indexes the list, names an equal game at or before it, and is shared by duplicates |
| HomeCells.NextIndex | Home/View/HomeViewCell.swift:156 | from a non-negative index (where Swift's truncating `%` agrees with the Euclidean one), one tick lands inside `[0, count)` |
| HomeCells.TicksClosedForm | Home/View/HomeViewCell.swift:156 | k ticks from a non-negative index land on (i + k) mod count |
| HomeCells.TicksReturnToStart | Home/View/HomeViewCell.swift:153-156 | from an index inside the banner, count ticks return to it and no fewer do |
| HomeCells.BannerCell.constructor | Home/View/HomeViewCell.swift:23-24 | no games, index 0 |
| HomeCells.BannerCell.Configure | Home/View/HomeViewCell.swift:67-72 | the games are replaced, the banners rebuilt and the page count set, while the index is not reset |
| HomeCells.BannerCell.SetupBannerViews | Home/View/HomeViewCell.swift:74-92 | one banner per game in order, each tagged with the first index of its game |
| HomeCells.BannerCell.ScrollToNext | Home/View/HomeViewCell.swift:153-165 | a no-op on an empty banner; otherwise the index advances cyclically and the page indicator follows it |
| HomeCells.BannerCell.BannerTapped | Home/View/HomeViewCell.swift:140-144 | a tap delivers a game exactly when the tag indexes the list, and then the game at the tag |
| HomeCells.BannerTapDeliversShownGame | Home/View/HomeViewCell.swift:133-143 | tapping any banner delivers a game equal to the one it shows |
| HomeCells.BannerScenario | Home/View/HomeViewCell.swift:153-165 | three ticks over three games return to the start; a shorter list keeps the index until the next tick |
| HomeCells.NewGameCell.constructor | Home/View/HomeViewCell.swift:189 | no games at first |
| HomeCells.NewGameCell.ReceiveGames | Home/View/HomeViewCell.swift:246-249 | each published list replaces the games |
| HomeCells.NewGameCell.NumberOfItems | Home/View/HomeViewCell.swift:262-264 | one item per game |
| HomeCells.NewGameCell.DidSelectItemAt | Home/View/HomeViewCell.swift:280-283 | reports the tapped game |
| HomeCells.PublishScenario | Home/View/HomeViewCell.swift:241-250 | after two publishes only the second list is shown |

## Left out

- The HTTP services and JSON decoding are not modelled: the service files, `URLSession` and `Codable`. Their outputs are the arguments of the `Receive…` and `Complete…` methods.
- Combine scheduling is not modelled: the 500 ms debounce and `removeDuplicates` in front of the search, `receive(on:)`, and the `AnyCancellable` bookkeeping. The accumulation of `NewGameCell` subscriptions is part of this.
- `URL(string:)` is a boolean input saying whether the built string parses. `URLError(.badURL).localizedDescription` is one constant string.
- The month window of the new-games query comes from `Calendar` and `DateFormatter`, so its two date strings are inputs.
- `APIConfig.apiKey` is read from the app bundle, so it is a constructor argument.
- GameDetailCells.RatingCell.Configure: the `String(format: "%.1f")` text of the rating is kept as the rating value (`OneDecimal`) and is not rendered.
- Common.Lower: only ASCII letters are lower-cased. Swift's full Unicode case mapping is not modelled.
- Common.LexLess: Swift `String` ordering is modelled as lexicographic order of characters. Unicode canonical equivalence is not modelled.
- GameDetailCells.StripTags: tags are matched on characters, whereas the regex engine matches on UTF-16 units. The two agree for '<' and '>'.
- Search.SortSearchResults: Swift's `sorted(by:)` is not an insertion sort, and with this non-transitive comparator its output order is unspecified. The model claims only what the insertion sort shows: the result is a permutation of the input, ordered by tier.
- HomeCells.FirstIndexOf: `GameListItemModel` equality is taken as field-by-field equality. Its `Equatable` conformance is not among the files of this model.
- HomeCells.BannerCell.ScrollToNext: `currentPage` is the value assigned to the page control. UIKit's clamping of it into the page count is not modelled.
- Also not modelled in `HomeCells.BannerCell`:
  - the `Timer` that drives the ticks;
  - `scrollViewDidEndDecelerating`, which sets the index from a floating-point scroll offset;
  - scroll-offset animation.
- The transient highlight `setSelected` gives a tapped chip in both genre strips is not modelled.
- Layout, fonts, images, colours other than the Metacritic and star tints, and text measurement are not modelled.
- These single-request view models, with no decision logic, are not part of this model: HomeListViewModel, LatestGamesViewModel, GameGenreViewModel and the detail view model in GameDtail/.
- The view controllers and coordinators are not part of this model.
