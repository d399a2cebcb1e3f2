/** GameDetail/ViewModel/GameDetailViewModel.swift: the detail screen's
    state, the platform-icon and Metacritic-colour tables, and the choice and
    order of the screen's sections. */
module GameDetail {
  import opened Common
  import opened GameModels

  /** The names `getPlatformIcon` knows, lower-cased. */
  const KnownPlatformNames: set<string> := {
    "pc", "playstation 5", "ps5", "playstation 4", "ps4", "playstation 3", "ps3",
    "xbox series x", "xbox one", "xbox 360", "nintendo switch", "ios", "android",
    "mac", "linux"}

  /** `getPlatformIcon(for:)`: the SF Symbol name for a platform name,
      matched on the lower-cased name. */
  function PlatformIcon(platformName: string): (icon: string)
    ensures icon in {"desktopcomputer", "playstation.logo", "xbox.logo", "gamecontroller", "iphone", "macbook"}
  {
    IconForLowercased(Lower(platformName))
  }

  /** The `switch` of `getPlatformIcon`, on an already lower-cased name. */
  function IconForLowercased(name: string): string
  {
    if name == "pc" then "desktopcomputer"
    else if name == "playstation 5" || name == "ps5" then "playstation.logo"
    else if name == "playstation 4" || name == "ps4" then "playstation.logo"
    else if name == "playstation 3" || name == "ps3" then "playstation.logo"
    else if name == "xbox series x" || name == "xbox one" || name == "xbox 360" then "xbox.logo"
    else if name == "nintendo switch" then "gamecontroller"
    else if name == "ios" then "iphone"
    else if name == "android" then "iphone"
    else if name == "mac" then "macbook"
    else if name == "linux" then "desktopcomputer"
    else "gamecontroller"
  }

  /** The icon does not depend on letter case. */
  lemma PlatformIconIgnoresCase(platformName: string)
    ensures PlatformIcon(platformName) == PlatformIcon(Lower(platformName))
  {
    LowerIdempotent(platformName);
  }

  /** PlayStation 3, 4 and 5, by name or abbreviation, show the PlayStation
      logo; the three Xbox names show the Xbox logo. */
  lemma ConsoleIcons(platformName: string)
    ensures Lower(platformName) in {"playstation 5", "ps5", "playstation 4", "ps4", "playstation 3", "ps3"} ==>
      PlatformIcon(platformName) == "playstation.logo"
    ensures Lower(platformName) in {"xbox series x", "xbox one", "xbox 360"} ==>
      PlatformIcon(platformName) == "xbox.logo"
  {
  }

  /** Phones, computers and the Switch: "ios" and "android" show a phone,
      "pc" and "linux" a desktop, "mac" a laptop, "nintendo switch" the
      generic controller. */
  lemma OtherDeviceIcons(platformName: string)
    ensures Lower(platformName) in {"ios", "android"} ==> PlatformIcon(platformName) == "iphone"
    ensures Lower(platformName) in {"pc", "linux"} ==> PlatformIcon(platformName) == "desktopcomputer"
    ensures Lower(platformName) == "mac" ==> PlatformIcon(platformName) == "macbook"
    ensures Lower(platformName) == "nintendo switch" ==> PlatformIcon(platformName) == "gamecontroller"
  {
  }

  /** Any name whose lower-cased form is not in the table shows the generic
      controller. */
  lemma UnknownPlatformIcon(platformName: string)
    requires Lower(platformName) !in KnownPlatformNames
    ensures PlatformIcon(platformName) == "gamecontroller"
  {
  }

  /** The colours `getMetacriticColor` chooses from. */
  datatype MetacriticColor = SystemGreen | SystemYellow | SystemRed

  /** `getMetacriticColor(for:)`: green for 75 through 100, yellow for 50
      through 74, red for every other score, above 100 and negative ones
      included. */
  function MetacriticColorFor(score: int): (c: MetacriticColor)
    ensures c == SystemGreen <==> 75 <= score <= 100
    ensures c == SystemYellow <==> 50 <= score < 75
    ensures c == SystemRed <==> score < 50 || score > 100
  {
    if 75 <= score <= 100 then SystemGreen
    else if 50 <= score < 75 then SystemYellow
    else SystemRed
  }

  /** The sections of the detail table, in declaration order. */
  datatype CellType =
    | ImageCarousel | Rating | GameInfo | Movies | Description | Screenshots | Metacritic | Developers

  /** Position of a section in the declaration (`CaseIterable`) order. */
  function Ordinal(c: CellType): nat
  {
    match c
    case ImageCarousel => 0
    case Rating => 1
    case GameInfo => 2
    case Movies => 3
    case Description => 4
    case Screenshots => 5
    case Metacritic => 6
    case Developers => 7
  }

  /** `cellIdentifier`: the reuse identifier of each section. */
  function CellIdentifier(c: CellType): string
  {
    match c
    case ImageCarousel => "ImageCarouselCell"
    case Rating => "RatingCell"
    case GameInfo => "GameInfoCell"
    case Movies => "GameVideoCell"
    case Description => "DescriptionCell"
    case Screenshots => "ScreenshotsCell"
    case Metacritic => "MetacriticCell"
    case Developers => "DevelopersCell"
  }

  /** Different sections never share a reuse identifier, and every
      identifier ends in "Cell". */
  lemma CellIdentifiersDistinct(a: CellType, b: CellType)
    ensures CellIdentifier(a) == CellIdentifier(b) ==> a == b
    ensures |CellIdentifier(a)| > 4 && CellIdentifier(a)[|CellIdentifier(a)| - 4..] == "Cell"
  {
  }

  /** The detail request, and the two follow-up requests a detail starts. */
  datatype DetailRequest = GameDetailRequest(gameId: int) | ScreenshotsRequest(gameId: int) | MoviesRequest(gameId: int)

  class GameDetailViewModel {
    var gameDetail: Option<GameDetailModel>
    var screenshots: seq<Screenshot>
    var movies: seq<Movie>
    var isLoading: bool
    var errorMessage: Option<string>

    constructor ()
      ensures gameDetail == None && screenshots == [] && movies == []
      ensures !isLoading && errorMessage == None
    {
      gameDetail := None;
      screenshots := [];
      movies := [];
      isLoading := false;
      errorMessage := None;
    }

    /** `fetchGameDetail(gameId:)`: marks loading, clears the error and asks
        for the detail. */
    method FetchGameDetail(gameId: int) returns (req: DetailRequest)
      modifies this`isLoading, this`errorMessage
      ensures req == GameDetailRequest(gameId) && isLoading && errorMessage == None
    {
      isLoading := true;
      errorMessage := None;
      req := GameDetailRequest(gameId);
    }

    /** The detail arrived: it is stored, and screenshots and movies of the
        same game are requested. */
    method ReceiveGameDetail(gameId: int, detail: GameDetailModel)
      returns (screenshotsReq: DetailRequest, moviesReq: DetailRequest)
      modifies this`gameDetail
      ensures gameDetail == Some(detail)
      ensures screenshotsReq == ScreenshotsRequest(gameId) && moviesReq == MoviesRequest(gameId)
    {
      gameDetail := Some(detail);
      screenshotsReq := ScreenshotsRequest(gameId);
      moviesReq := MoviesRequest(gameId);
    }

    /** The detail request completed: loading ends; a failure is reported. */
    method CompleteGameDetail(c: Completion)
      modifies this`isLoading, this`errorMessage
      ensures !isLoading
      ensures errorMessage == if c.Failure? then Some(c.description) else old(errorMessage)
    {
      isLoading := false;
      if c.Failure? {
        errorMessage := Some(c.description);
      }
    }

    /** Screenshots arrived: they replace the list (absent results give an
        empty list). Their completion is ignored by the source. */
    method ReceiveScreenshots(results: Option<seq<Screenshot>>)
      modifies this`screenshots
      ensures screenshots == if results.Some? then results.value else []
    {
      screenshots := if results.Some? then results.value else [];
    }

    /** Movies arrived: they replace the list (absent results give an empty
        list). Their completion is ignored by the source. */
    method ReceiveMovies(results: Option<seq<Movie>>)
      modifies this`movies
      ensures movies == if results.Some? then results.value else []
    {
      movies := if results.Some? then results.value else [];
    }

    /** `visibleCells`: no section without a detail; otherwise carousel,
        rating and info, then movies if there are any, the description,
        screenshots if there are any, Metacritic if the detail lists
        Metacritic platforms, and the developers. The source force-unwraps
        `metacriticPlatforms`, so a detail without it is excluded. */
    function VisibleCells(): (cells: seq<CellType>)
      reads this
      requires gameDetail.Some? ==> gameDetail.value.metacriticPlatforms.Some?
      ensures gameDetail.None? <==> cells == []
      ensures gameDetail.Some? ==>
                5 <= |cells| <= 8 &&
                cells[..3] == [ImageCarousel, Rating, GameInfo] &&
                cells[|cells| - 1] == Developers
    {
      match gameDetail
      case None => []
      case Some(detail) =>
        SectionsFor(movies != [], screenshots != [], detail.metacriticPlatforms.value != [])
    }

    /** `numberOfCells`: the number of visible sections. */
    function NumberOfCells(): (n: int)
      reads this
      requires gameDetail.Some? ==> gameDetail.value.metacriticPlatforms.Some?
      ensures n == |VisibleCells()|
      ensures gameDetail.None? ==> n == 0
      ensures gameDetail.Some? ==> 5 <= n <= 8
    {
      |VisibleCells()|
    }
  }

  /** The sections of a present detail, built by appending as
      `visibleCells` does. */
  function SectionsFor(hasMovies: bool, hasScreenshots: bool, hasMetacritic: bool): (cells: seq<CellType>)
    ensures 5 <= |cells| <= 8
    ensures cells[..3] == [ImageCarousel, Rating, GameInfo] && cells[|cells| - 1] == Developers
  {
    var withMovies := [ImageCarousel, Rating, GameInfo] + (if hasMovies then [Movies] else []);
    var withDescription := withMovies + [Description];
    var withScreenshots := withDescription + (if hasScreenshots then [Screenshots] else []);
    var withMetacritic := withScreenshots + (if hasMetacritic then [Metacritic] else []);
    withMetacritic + [Developers]
  }

  /** The optional sections appear exactly when their flag holds, and the
      description always appears. */
  lemma SectionsPresence(hasMovies: bool, hasScreenshots: bool, hasMetacritic: bool)
    ensures var cells := SectionsFor(hasMovies, hasScreenshots, hasMetacritic);
      Description in cells &&
      (Movies in cells <==> hasMovies) &&
      (Screenshots in cells <==> hasScreenshots) &&
      (Metacritic in cells <==> hasMetacritic)
  {
    var cells := SectionsFor(hasMovies, hasScreenshots, hasMetacritic);
    var k := if hasMovies then 4 else 3;
    assert cells[k] == Description;
    if hasMovies { assert cells[3] == Movies; }
    if hasScreenshots { assert cells[k + 1] == Screenshots; }
    if hasMetacritic { assert cells[|cells| - 2] == Metacritic; }
  }

  /** The sections follow the declaration order strictly, so none appears
      twice. */
  lemma SectionsOrdered(hasMovies: bool, hasScreenshots: bool, hasMetacritic: bool)
    ensures var cells := SectionsFor(hasMovies, hasScreenshots, hasMetacritic);
      forall i, j :: 0 <= i < j < |cells| ==> Ordinal(cells[i]) < Ordinal(cells[j])
  {
    var cells := SectionsFor(hasMovies, hasScreenshots, hasMetacritic);
    assert forall i :: 0 <= i < |cells| - 1 ==> Ordinal(cells[i]) < Ordinal(cells[i + 1]);
  }

  /** What the screen shows for a view model: the section rules of
      `SectionsFor` applied to its movies, screenshots and Metacritic
      platforms. */
  lemma VisibleCellsSections(vm: GameDetailViewModel)
    requires vm.gameDetail.Some? && vm.gameDetail.value.metacriticPlatforms.Some?
    ensures var cells := vm.VisibleCells();
      Description in cells &&
      (Movies in cells <==> vm.movies != []) &&
      (Screenshots in cells <==> vm.screenshots != []) &&
      (Metacritic in cells <==> vm.gameDetail.value.metacriticPlatforms.value != []) &&
      forall i, j :: 0 <= i < j < |cells| ==> Ordinal(cells[i]) < Ordinal(cells[j])
  {
    var m, s, c := vm.movies != [], vm.screenshots != [], vm.gameDetail.value.metacriticPlatforms.value != [];
    SectionsPresence(m, s, c);
    SectionsOrdered(m, s, c);
  }
}
