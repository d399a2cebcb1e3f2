/** NewGamePage/ViewModel/NewGameViewModel.swift: this month's new games,
    filtered by genre. The month window is computed with the system calendar;
    the model takes its two date strings as inputs. Whether `URL(string:)`
    accepts a built string is an input too. */
module NewGames {
  import opened Common
  import opened GameModels
  import opened GenreModel

  /** The games URL before the genre filter is added. */
  function BaseGamesURL(apiKey: string, startDate: string, endDate: string): string
  {
    BaseURL + "/games?key=" + apiKey + "&dates=" + startDate + "," + endDate +
      "&ordering=-released&page_size=30"
  }

  /** The games URL for a selection: the base URL, followed by
      `&genres=<id>` for `.genre(g)` and by nothing for `.all`. */
  function GamesURL(apiKey: string, startDate: string, endDate: string, selected: GenreType): (url: string)
    ensures selected.All? ==> url == BaseGamesURL(apiKey, startDate, endDate)
    ensures selected.Genre? ==>
      url == BaseGamesURL(apiKey, startDate, endDate) + "&genres=" + Decimal(selected.genre.id)
  {
    match selected
    case All => BaseGamesURL(apiKey, startDate, endDate)
    case Genre(g) => BaseGamesURL(apiKey, startDate, endDate) + "&genres=" + Decimal(g.id)
  }

  /** Two selections give the same URL only when both are `.all` or both
      are genres with the same id: the genre parameter is present exactly for
      `.genre(g)` and carries `g.id`, which reads back from the URL. */
  lemma GamesURLDistinguishesSelections(apiKey: string, startDate: string, endDate: string, t1: GenreType, t2: GenreType)
    requires GamesURL(apiKey, startDate, endDate, t1) == GamesURL(apiKey, startDate, endDate, t2)
    ensures t1.All? <==> t2.All?
    ensures t1.Genre? ==> t1.genre.id == t2.genre.id
  {
    var b := BaseGamesURL(apiKey, startDate, endDate);
    var u := GamesURL(apiKey, startDate, endDate, t1);
    if t1.Genre? && t2.Genre? {
      var d1, d2 := Decimal(t1.genre.id), Decimal(t2.genre.id);
      assert u == b + "&genres=" + d1 == b + "&genres=" + d2;
      assert d1 == u[|b| + 8..] == d2;
      DecimalRoundTrip(t1.genre.id);
      DecimalRoundTrip(t2.genre.id);
    }
  }

  class NewGameViewModel {
    var genreTypes: seq<GenreType>
    var selectedGenreType: GenreType
    var games: seq<GameListItemModel>
    var isLoading: bool
    var errorMessage: Option<string>
    /** `APIConfig.apiKey`, read from the app bundle. */
    const apiKey: string

    constructor (key: string)
      ensures apiKey == key
      ensures genreTypes == [] && selectedGenreType == All && games == []
      ensures !isLoading && errorMessage == None
    {
      apiKey := key;
      genreTypes := [];
      selectedGenreType := All;
      games := [];
      isLoading := false;
      errorMessage := None;
    }

    /** `fetchGenres`: marks loading and clears the error; a genres URL that
        does not parse clears loading again and reports a bad URL. */
    method FetchGenres(urlParses: bool) returns (requested: bool)
      modifies this`isLoading, this`errorMessage
      ensures requested == urlParses
      ensures isLoading == urlParses
      ensures errorMessage == if urlParses then None else Some(BadURLDescription)
    {
      isLoading := true;
      errorMessage := None;
      if !urlParses {
        isLoading := false;
        errorMessage := Some(BadURLDescription);
        return false;
      }
      return true;
    }

    /** The genres arrived: the strip becomes `.all` followed by them, in
        order, and the games of the selection are requested. */
    method ReceiveGenres(results: seq<GameGenreResult>, startDate: string, endDate: string, gamesURLParses: bool)
      returns (url: Option<string>)
      modifies this`genreTypes, this`errorMessage
      ensures genreTypes == GenreTypesFor(FromResults(results))
      ensures |genreTypes| == |results| + 1
      ensures url == if gamesURLParses then Some(GamesURL(apiKey, startDate, endDate, selectedGenreType)) else None
      ensures errorMessage == if gamesURLParses then old(errorMessage) else Some(BadURLDescription)
    {
      var genres := FromResults(results);
      genreTypes := GenreTypesFor(genres);
      url := FetchGamesForSelectedGenre(startDate, endDate, gamesURLParses);
    }

    /** The genres request completed: loading ends; a failure is reported. */
    method CompleteGenres(c: Completion)
      modifies this`isLoading, this`errorMessage
      ensures !isLoading
      ensures errorMessage == if c.Failure? then Some(c.description) else old(errorMessage)
    {
      isLoading := false;
      if c.Failure? {
        errorMessage := Some(c.description);
      }
    }

    /** `selectGenreType`: records the selection, marks loading and
        requests its games; the list and the error are left as they are
        unless the URL is bad. */
    method SelectGenreType(t: GenreType, startDate: string, endDate: string, urlParses: bool)
      returns (url: Option<string>)
      modifies this`selectedGenreType, this`isLoading, this`errorMessage
      ensures selectedGenreType == t && isLoading
      ensures url == if urlParses then Some(GamesURL(apiKey, startDate, endDate, t)) else None
      ensures errorMessage == if urlParses then old(errorMessage) else Some(BadURLDescription)
    {
      selectedGenreType := t;
      isLoading := true;
      url := FetchGamesForSelectedGenre(startDate, endDate, urlParses);
    }

    /** `fetchGamesForSelectedGenre`: builds the games URL of the selection;
        if it does not parse, reports a bad URL and leaves `isLoading` as it
        is. */
    method FetchGamesForSelectedGenre(startDate: string, endDate: string, urlParses: bool)
      returns (url: Option<string>)
      modifies this`errorMessage
      ensures url == if urlParses then Some(GamesURL(apiKey, startDate, endDate, selectedGenreType)) else None
      ensures errorMessage == if urlParses then old(errorMessage) else Some(BadURLDescription)
    {
      var urlString := BaseGamesURL(apiKey, startDate, endDate);
      match selectedGenreType {
        case All =>
        case Genre(genre) =>
          urlString := urlString + "&genres=" + Decimal(genre.id);
      }
      if !urlParses {
        errorMessage := Some(BadURLDescription);
        return None;
      }
      url := Some(urlString);
    }

    /** The games arrived: they replace the list, never extend it. */
    method ReceiveGames(results: seq<GameSearchResult>)
      modifies this`games
      ensures games == ToListItems(results)
    {
      games := ToListItems(results);
    }

    /** The games request completed: loading ends; a failure is reported. */
    method CompleteGames(c: Completion)
      modifies this`isLoading, this`errorMessage
      ensures !isLoading
      ensures errorMessage == if c.Failure? then Some(c.description) else old(errorMessage)
    {
      isLoading := false;
      if c.Failure? {
        errorMessage := Some(c.description);
      }
    }
  }

  /** A bad games URL and a bad genres URL end differently: the first
      leaves the loading flag set, the second clears it; both report a bad
      URL. */
  method BadURLScenario(key: string, t: GenreType, startDate: string, endDate: string)
    returns (loadingAfterBadGamesURL: bool, loadingAfterBadGenresURL: bool, message: Option<string>)
    ensures loadingAfterBadGamesURL && !loadingAfterBadGenresURL
    ensures message == Some(BadURLDescription)
  {
    var vm := new NewGameViewModel(key);
    var url := vm.SelectGenreType(t, startDate, endDate, false);
    loadingAfterBadGamesURL := vm.isLoading;
    var requested := vm.FetchGenres(false);
    loadingAfterBadGenresURL := vm.isLoading;
    message := vm.errorMessage;
  }
}
