/** The fields of the decoded API records that the modelled core reads.
    Decoding itself (Codable / JSONDecoder) is not modelled: these are the
    values a decoder hands over. */
module GameModels {
  import opened Common

  /** One element of `results` in a game list or search response. */
  datatype GameSearchResult = GameSearchResult(
    id: int,
    name: string,
    slug: string,
    backgroundImage: Option<string>,
    rating: real,
    released: Option<string>,
    platformNames: seq<string>)

  /** The list item every list screen shows. */
  datatype GameListItemModel = GameListItemModel(
    id: int,
    name: string,
    backgroundImage: Option<string>,
    rating: Option<real>,
    released: Option<string>,
    platforms: seq<string>)

  /** `GameListItemModel(from:)`: copies the fields, wraps the rating. */
  function ToListItem(r: GameSearchResult): (m: GameListItemModel)
    ensures m.id == r.id && m.name == r.name && m.rating == Some(r.rating)
    ensures m.backgroundImage == r.backgroundImage && m.released == r.released
    ensures m.platforms == r.platformNames
  {
    GameListItemModel(r.id, r.name, r.backgroundImage, Some(r.rating), r.released, r.platformNames)
  }

  /** `response.results.map { GameListItemModel(from: $0) }`. */
  function ToListItems(rs: seq<GameSearchResult>): (ms: seq<GameListItemModel>)
    ensures |ms| == |rs|
    ensures forall i :: 0 <= i < |rs| ==> ms[i] == ToListItem(rs[i])
  {
    if rs == [] then [] else [ToListItem(rs[0])] + ToListItems(rs[1..])
  }

  /** A paged game list response: `next` and `results`. */
  datatype GameListResponse = GameListResponse(next: Option<string>, results: seq<GameSearchResult>)

  /** A search response; only `results` is read. */
  datatype GameSearchResponse = GameSearchResponse(results: seq<GameSearchResult>)

  datatype EsrbRating = EsrbRating(name: Option<string>)

  datatype MetacriticPlatform = MetacriticPlatform(metascore: Option<int>, platformName: Option<string>)

  /** The detail record, reduced to the fields the detail screen reads. */
  datatype GameDetailModel = GameDetailModel(
    id: int,
    description: Option<string>,
    metacriticPlatforms: Option<seq<MetacriticPlatform>>,
    released: Option<string>,
    tba: Option<bool>,
    updated: Option<string>,
    rating: Option<real>,
    ratingsCount: Option<int>,
    esrbRating: Option<EsrbRating>)

  datatype Screenshot = Screenshot(image: Option<string>)

  datatype Movie = Movie(id: Option<int>, name: Option<string>)

  datatype PlatformModel = PlatformModel(id: int, name: string, slug: string, gamesCount: int)

  /** The platforms response; `results` may be absent. */
  datatype PlatformResponse = PlatformResponse(next: Option<string>, results: Option<seq<PlatformModel>>)
}
