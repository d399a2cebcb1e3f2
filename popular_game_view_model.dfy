/** PopularGamePage/ViewModel/PopularGameViewModel.swift: popular games,
    all of them or those of one genre. */
module PopularGames {
  import opened Common
  import opened GameModels
  import opened GenreModel

  /** The requests handed to the popular-games service. */
  datatype PopularRequest =
    | AllGenres
    | AllPopularGames(pageSize: int)
    | PopularGamesForGenre(genre: GameGenreModel, pageSize: int)

  /** `fetchGamesForSelectedGenre`'s dispatch: `.all` asks for all popular
      games, `.genre(g)` for the popular games of `g`; both pages hold 20. */
  function GamesRequestFor(selected: GenreType): (r: PopularRequest)
    ensures r.AllPopularGames? <==> selected.All?
    ensures selected.Genre? ==> r == PopularGamesForGenre(selected.genre, 20)
    ensures !r.AllGenres? && r.pageSize == 20
  {
    match selected
    case All => AllPopularGames(20)
    case Genre(g) => PopularGamesForGenre(g, 20)
  }

  class PopularGameViewModel {
    var genres: seq<GameGenreModel>
    var genreTypes: seq<GenreType>
    var selectedGenreType: GenreType
    var games: seq<GameListItemModel>
    var isLoading: bool
    var errorMessage: Option<string>

    /** The strip is always built from the stored genres, or still empty. */
    ghost predicate Valid()
      reads this
    {
      genreTypes == [] || genreTypes == GenreTypesFor(genres)
    }

    constructor ()
      ensures Valid()
      ensures genres == [] && genreTypes == [] && selectedGenreType == All && games == []
      ensures !isLoading && errorMessage == None
    {
      genres := [];
      genreTypes := [];
      selectedGenreType := All;
      games := [];
      isLoading := false;
      errorMessage := None;
    }

    /** `fetchGenres`: marks loading, clears the error, asks for the genres. */
    method FetchGenres() returns (req: PopularRequest)
      requires Valid()
      modifies this`isLoading, this`errorMessage
      ensures Valid()
      ensures req == AllGenres && isLoading && errorMessage == None
    {
      isLoading := true;
      errorMessage := None;
      req := AllGenres;
    }

    /** The genres arrived: they are stored, the strip is rebuilt as `.all`
        followed by them, and the games of the selection are requested. */
    method ReceiveGenres(newGenres: seq<GameGenreModel>) returns (req: PopularRequest)
      requires Valid()
      modifies this`genres, this`genreTypes
      ensures Valid()
      ensures genres == newGenres
      ensures genreTypes == GenreTypesFor(newGenres)
      ensures req == GamesRequestFor(selectedGenreType)
    {
      genres := newGenres;
      UpdateGenreTypes();
      req := FetchGamesForSelectedGenre();
    }

    /** `updateGenreTypes`. */
    method UpdateGenreTypes()
      modifies this`genreTypes
      ensures Valid()
      ensures genreTypes == GenreTypesFor(genres)
    {
      genreTypes := GenreTypesFor(genres);
    }

    /** The genres request completed: loading ends; a failure is reported. */
    method CompleteGenres(c: Completion)
      requires Valid()
      modifies this`isLoading, this`errorMessage
      ensures Valid()
      ensures !isLoading
      ensures errorMessage == if c.Failure? then Some(c.description) else old(errorMessage)
    {
      isLoading := false;
      if c.Failure? {
        errorMessage := Some(c.description);
      }
    }

    /** `selectGenreType`: records the selection, marks loading and
        requests its games; the list and the error stay as they are. */
    method SelectGenreType(t: GenreType) returns (req: PopularRequest)
      requires Valid()
      modifies this`selectedGenreType, this`isLoading
      ensures Valid()
      ensures selectedGenreType == t && isLoading
      ensures req == GamesRequestFor(t)
    {
      selectedGenreType := t;
      isLoading := true;
      req := FetchGamesForSelectedGenre();
    }

    /** `fetchGamesForSelectedGenre`: dispatches on the selection. */
    method FetchGamesForSelectedGenre() returns (req: PopularRequest)
      ensures req == GamesRequestFor(selectedGenreType)
    {
      match selectedGenreType {
        case All => req := AllPopularGames(20);
        case Genre(g) => req := PopularGamesForGenre(g, 20);
      }
    }

    /** Either games request delivered its games (the two closures are the
        same): they replace the list. */
    method ReceiveGames(newGames: seq<GameListItemModel>)
      requires Valid()
      modifies this`games
      ensures Valid()
      ensures games == newGames
    {
      games := newGames;
    }

    /** Either games request completed (the two closures are the same):
        loading ends; a failure is reported. */
    method CompleteGames(c: Completion)
      requires Valid()
      modifies this`isLoading, this`errorMessage
      ensures Valid()
      ensures !isLoading
      ensures errorMessage == if c.Failure? then Some(c.description) else old(errorMessage)
    {
      isLoading := false;
      if c.Failure? {
        errorMessage := Some(c.description);
      }
    }
  }

  /** A genre chosen before the genres arrive: its request is issued at
      once, and the genres' arrival requests the same selection again. A
      failed games request keeps the games already shown and reports the
      failure. */
  method SelectBeforeGenresScenario(g: GameGenreModel, gs: seq<GameGenreModel>, shown: seq<GameListItemModel>)
    returns (selectReq: PopularRequest, genresReq: PopularRequest, stripLength: int,
             games: seq<GameListItemModel>, loading: bool, error: Option<string>)
    ensures selectReq == PopularGamesForGenre(g, 20) && genresReq == selectReq
    ensures stripLength == |gs| + 1
    ensures games == shown && !loading && error == Some("offline")
  {
    var vm := new PopularGameViewModel();
    var req := vm.FetchGenres();
    selectReq := vm.SelectGenreType(Genre(g));
    vm.ReceiveGames(shown);
    genresReq := vm.ReceiveGenres(gs);
    vm.CompleteGenres(Finished);
    stripLength := |vm.genreTypes|;
    vm.CompleteGames(Failure("offline"));
    games, loading, error := vm.games, vm.isLoading, vm.errorMessage;
  }
}
