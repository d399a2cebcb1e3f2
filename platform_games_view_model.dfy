/** PlatformsPage/ViewModel/PlatformGamesViewModel.swift: the games of one
    platform, filtered by genre and loaded page by page. Every asynchronous
    call is split in two: a method for its synchronous part, which returns
    the request it issues (or `None` when it issues none), and event methods
    for the subscription's `receiveValue` and `receiveCompletion` closures.
    Responses are applied whenever they arrive; as in the source there is no
    check that a response belongs to the latest request. */
module PlatformGames {
  import opened Common
  import opened GameModels
  import opened GenreModel

  /** The page size of every paged request. */
  const PageSize: int := 20

  /** The requests this view model hands to its games service. */
  datatype GamesRequest =
    | PlatformGames(platformId: int, page: int, pageSize: int)
    | PlatformGamesByGenre(platformId: int, genreId: int, page: int, pageSize: int)
    | PlatformGamesFromURL(url: string)

  /** The request `fetchGamesForSelectedGenre` issues: none without a
      platform; otherwise page `page` of size 20, of all the platform's games
      for `.all` and of the selected genre's games for `.genre(g)`. */
  function PageRequestFor(platformId: Option<int>, selected: GenreType, page: int): (r: Option<GamesRequest>)
    ensures r.Some? <==> platformId.Some?
    ensures r.Some? ==> !r.value.PlatformGamesFromURL?
    ensures r.Some? ==> r.value.platformId == platformId.value && r.value.page == page && r.value.pageSize == 20
    ensures r.Some? ==> (r.value.PlatformGames? <==> selected.All?)
    ensures r.Some? && selected.Genre? ==> r.value.PlatformGamesByGenre? && r.value.genreId == selected.genre.id
  {
    match platformId
    case None => None
    case Some(id) =>
      match selected
      case All => Some(PlatformGames(id, page, PageSize))
      case Genre(g) => Some(PlatformGamesByGenre(id, g.id, page, PageSize))
  }

  /** How a page response changes the list: page 1 replaces it, any later
      page is appended after it. */
  function MergePage(games: seq<GameListItemModel>, page: int, results: seq<GameSearchResult>): (r: seq<GameListItemModel>)
    ensures page == 1 ==> r == ToListItems(results)
    ensures page != 1 ==> |r| == |games| + |results| && r[..|games|] == games
    ensures page != 1 ==> forall i :: 0 <= i < |results| ==> r[|games| + i] == ToListItem(results[i])
  {
    if page == 1 then ToListItems(results) else games + ToListItems(results)
  }

  class PlatformGamesViewModel {
    var genreTypes: seq<GenreType>
    var selectedGenreType: GenreType
    var games: seq<GameListItemModel>
    var isLoading: bool
    var isLoadingMore: bool
    var errorMessage: Option<string>
    var hasMoreData: bool
    var platformId: Option<int>
    var currentPage: int
    var nextURL: Option<string>

    /** The page counter starts at 1 and only ever grows or is reset to 1,
        so every numbered page this view model requests is at least 1. */
    ghost predicate Valid()
      reads this
    {
      currentPage >= 1
    }

    constructor ()
      ensures Valid()
      ensures genreTypes == [] && selectedGenreType == All && games == []
      ensures !isLoading && !isLoadingMore && errorMessage == None && hasMoreData
      ensures platformId == None && currentPage == 1 && nextURL == None
    {
      genreTypes := [];
      selectedGenreType := All;
      games := [];
      isLoading := false;
      isLoadingMore := false;
      errorMessage := None;
      hasMoreData := true;
      platformId := None;
      currentPage := 1;
      nextURL := None;
    }

    /** `configure(with:)`: remembers the platform, then loads the genres. */
    method Configure(id: int, genresURLParses: bool) returns (genresRequested: bool)
      requires Valid()
      modifies this`platformId, this`isLoading, this`errorMessage
      ensures Valid()
      ensures platformId == Some(id)
      ensures genresRequested == genresURLParses
      ensures isLoading == genresURLParses
      ensures errorMessage == if genresURLParses then None else Some(BadURLDescription)
    {
      platformId := Some(id);
      genresRequested := FetchGenres(genresURLParses);
    }

    /** `fetchGenres`: marks loading and clears the error; if the genres URL
        does not parse, clears loading again and reports a bad URL. */
    method FetchGenres(urlParses: bool) returns (requested: bool)
      requires Valid()
      modifies this`isLoading, this`errorMessage
      ensures Valid()
      ensures requested == urlParses
      ensures isLoading == urlParses
      ensures errorMessage == if urlParses then None else Some(BadURLDescription)
    {
      isLoading := true;
      errorMessage := None;
      if !urlParses {
        isLoading := false;
        errorMessage := Some(BadURLDescription);
        return false;
      }
      return true;
    }

    /** The genres request delivered its decoded results: the strip becomes
        `.all` followed by the genres built from them, and the games of the
        selection are requested. */
    method ReceiveGenres(results: seq<GameGenreResult>) returns (req: Option<GamesRequest>)
      requires Valid()
      modifies this`genreTypes, this`isLoading, this`errorMessage
      ensures Valid()
      ensures genreTypes == GenreTypesFor(FromResults(results))
      ensures req == PageRequestFor(platformId, selectedGenreType, currentPage)
      ensures req.Some? ==> req.value.page >= 1
      ensures isLoading == if req.Some? then true else old(isLoading)
      ensures errorMessage == if req.Some? then None else old(errorMessage)
    {
      var genres := FromResults(results);
      genreTypes := GenreTypesFor(genres);
      req := FetchGamesForSelectedGenre();
    }

    /** The genres request completed: loading ends; a failure is reported. */
    method CompleteGenres(c: Completion)
      requires Valid()
      modifies this`isLoading, this`errorMessage
      ensures Valid()
      ensures !isLoading
      ensures errorMessage == if c.Failure? then Some(c.description) else old(errorMessage)
    {
      isLoading := false;
      if c.Failure? {
        errorMessage := Some(c.description);
      }
    }

    /** `selectGenreType`: resets the list to page 1 of the new selection.
        `nextURL` is not touched (it is outside the frame). */
    method SelectGenreType(t: GenreType) returns (req: Option<GamesRequest>)
      requires Valid()
      modifies this`selectedGenreType, this`currentPage, this`games, this`hasMoreData
      modifies this`isLoading, this`errorMessage
      ensures Valid()
      ensures selectedGenreType == t && currentPage == 1 && games == [] && hasMoreData && isLoading
      ensures req == PageRequestFor(platformId, t, 1)
      ensures errorMessage == if req.Some? then None else old(errorMessage)
    {
      selectedGenreType := t;
      currentPage := 1;
      games := [];
      hasMoreData := true;
      isLoading := true;
      req := FetchGamesForSelectedGenre();
    }

    /** True when `loadMoreGames` returns at its guard. */
    predicate LoadMoreBlocked()
      reads this
    {
      isLoadingMore || !hasMoreData || isLoading
    }

    /** `loadMoreGames`: a no-op while any load runs or when no more data is
        expected; otherwise follows `nextURL` when there is one, and else
        asks for the next page number. */
    method LoadMoreGames() returns (req: Option<GamesRequest>)
      requires Valid()
      modifies this`isLoadingMore, this`errorMessage, this`currentPage, this`isLoading
      ensures Valid()
      ensures old(LoadMoreBlocked()) ==> req == None && unchanged(this)
      ensures !old(LoadMoreBlocked()) ==> isLoadingMore && errorMessage == None
      ensures !old(LoadMoreBlocked()) && old(nextURL).Some? ==>
        req == Some(PlatformGamesFromURL(old(nextURL).value)) &&
        currentPage == old(currentPage) && !isLoading
      ensures !old(LoadMoreBlocked()) && old(nextURL).None? ==>
        currentPage == old(currentPage) + 1 &&
        req == PageRequestFor(platformId, selectedGenreType, currentPage) &&
        isLoading == req.Some? && (req.Some? ==> req.value.page >= 2)
    {
      if LoadMoreBlocked() {
        return None;
      }
      isLoadingMore := true;
      errorMessage := None;
      if nextURL.Some? {
        req := Some(PlatformGamesFromURL(nextURL.value));
      } else {
        currentPage := currentPage + 1;
        req := FetchGamesForSelectedGenre();
      }
    }

    /** The `nextURL` request delivered a page: its games are appended, and
        the cursor and `hasMoreData` follow the response's `next`. */
    method ReceiveNextPage(response: GameListResponse)
      requires Valid()
      modifies this`games, this`nextURL, this`hasMoreData
      ensures Valid()
      ensures games == old(games) + ToListItems(response.results)
      ensures nextURL == response.next && hasMoreData == response.next.Some?
    {
      games := games + ToListItems(response.results);
      nextURL := response.next;
      hasMoreData := response.next.Some?;
    }

    /** The `nextURL` request completed: only `isLoadingMore` is cleared. */
    method CompleteNextPage(c: Completion)
      requires Valid()
      modifies this`isLoadingMore, this`errorMessage
      ensures Valid()
      ensures !isLoadingMore
      ensures errorMessage == if c.Failure? then Some(c.description) else old(errorMessage)
    {
      isLoadingMore := false;
      if c.Failure? {
        errorMessage := Some(c.description);
      }
    }

    /** `fetchGamesForSelectedGenre`: without a platform, does nothing;
        otherwise marks loading, clears the error and requests the current
        page of the selection. */
    method FetchGamesForSelectedGenre() returns (req: Option<GamesRequest>)
      requires Valid()
      modifies this`isLoading, this`errorMessage
      ensures Valid()
      ensures req == PageRequestFor(platformId, selectedGenreType, currentPage)
      ensures req.Some? ==> req.value.page >= 1
      ensures isLoading == if req.Some? then true else old(isLoading)
      ensures errorMessage == if req.Some? then None else old(errorMessage)
    {
      if platformId.None? {
        return None;
      }
      isLoading := true;
      errorMessage := None;
      match selectedGenreType {
        case All =>
          req := Some(PlatformGames(platformId.value, currentPage, PageSize));
        case Genre(g) =>
          req := Some(PlatformGamesByGenre(platformId.value, g.id, currentPage, PageSize));
      }
    }

    /** A page request delivered its page: on page 1 it replaces the list,
        on a later page it is appended (`currentPage` is read when the
        response arrives); the cursor and `hasMoreData` follow `next`. */
    method ReceivePage(response: GameListResponse)
      requires Valid()
      modifies this`games, this`nextURL, this`hasMoreData
      ensures Valid()
      ensures games == MergePage(old(games), currentPage, response.results)
      ensures nextURL == response.next && hasMoreData == response.next.Some?
    {
      var gameModels := ToListItems(response.results);
      if currentPage == 1 {
        games := gameModels;
      } else {
        games := games + gameModels;
      }
      nextURL := response.next;
      hasMoreData := response.next.Some?;
    }

    /** A page request completed: both loading flags are cleared. */
    method CompletePage(c: Completion)
      requires Valid()
      modifies this`isLoading, this`isLoadingMore, this`errorMessage
      ensures Valid()
      ensures !isLoading && !isLoadingMore
      ensures errorMessage == if c.Failure? then Some(c.description) else old(errorMessage)
    {
      isLoading := false;
      isLoadingMore := false;
      if c.Failure? {
        errorMessage := Some(c.description);
      }
    }

    /** `getGamesCount`. */
    function GamesCount(): (n: int)
      reads this
      ensures n == |games|
    {
      |games|
    }

    /** `getGame(at:)`: the game at `index`, or nil outside the list. */
    function GetGame(index: int): (r: Option<GameListItemModel>)
      reads this
      ensures r.Some? <==> 0 <= index < |games|
      ensures r.Some? ==> r.value == games[index]
    {
      if 0 <= index < |games| then Some(games[index]) else None
    }
  }

  /** A platform with two pages: the first page request returns `first` with
      a `next` URL, `loadMoreGames` follows that URL, and the second page
      returns `second` without `next`. The list ends as both pages in order,
      no more data is expected, and a further `loadMoreGames` issues
      nothing. */
  method TwoPageScenario(id: int, first: seq<GameSearchResult>, url: string, second: seq<GameSearchResult>)
    returns (games: seq<GameListItemModel>, hasMore: bool, third: Option<GamesRequest>)
    ensures games == ToListItems(first) + ToListItems(second)
    ensures !hasMore && third == None
  {
    var vm := new PlatformGamesViewModel();
    var ok := vm.Configure(id, true);
    var req := vm.ReceiveGenres([]);
    assert req == Some(PlatformGames(id, 1, 20));
    vm.CompleteGenres(Finished);
    vm.ReceivePage(GameListResponse(Some(url), first));
    vm.CompletePage(Finished);
    req := vm.LoadMoreGames();
    assert req == Some(PlatformGamesFromURL(url));
    vm.ReceiveNextPage(GameListResponse(None, second));
    vm.CompleteNextPage(Finished);
    games, hasMore := vm.games, vm.hasMoreData;
    third := vm.LoadMoreGames();
  }

  /** Two filter changes in a row, then the late answer to the first: it is
      applied to the list although the second filter is selected, since
      responses carry no check against the current selection. */
  method StaleResponseScenario(id: int, g1: GameGenreModel, g2: GameGenreModel, late: seq<GameSearchResult>)
    returns (r1: Option<GamesRequest>, r2: Option<GamesRequest>, selected: GenreType, games: seq<GameListItemModel>)
    ensures r1 == Some(PlatformGamesByGenre(id, g1.id, 1, 20))
    ensures r2 == Some(PlatformGamesByGenre(id, g2.id, 1, 20))
    ensures selected == Genre(g2) && games == ToListItems(late)
  {
    var vm := new PlatformGamesViewModel();
    var ok := vm.Configure(id, true);
    var req := vm.ReceiveGenres([]);
    vm.CompleteGenres(Finished);
    r1 := vm.SelectGenreType(Genre(g1));
    r2 := vm.SelectGenreType(Genre(g2));
    vm.ReceivePage(GameListResponse(None, late));
    selected, games := vm.selectedGenreType, vm.games;
  }

  /** Choosing a filter before any platform is configured issues no request,
      so nothing will ever clear the loading flag it set, and `loadMoreGames`
      stays blocked. */
  method NoPlatformScenario(t: GenreType)
    returns (req: Option<GamesRequest>, loading: bool, more: Option<GamesRequest>)
    ensures req == None && loading && more == None
  {
    var vm := new PlatformGamesViewModel();
    req := vm.SelectGenreType(t);
    loading := vm.isLoading;
    more := vm.LoadMoreGames();
  }
}
