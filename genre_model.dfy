/** Genre/GameGenreModel.swift: the genre value, its identity-by-id
    equality, and the genre filter used by every list screen. */
module GenreModel {
  import opened Common

  /** `GameGenreResult`, one decoded genre. */
  datatype GameGenreResult = GameGenreResult(
    id: int, name: string, slug: string, gamesCount: int, imageBackground: Option<string>)

  /** `GameGenreModel`. */
  datatype GameGenreModel = GameGenreModel(
    id: int, name: string, slug: string, gamesCount: int, imageBackground: Option<string>)

  /** The filter of the list screens: every genre, or one genre. The Swift
      enum is declared outside the files of this model; this is its shape as
      its uses show it (`.all`, `.genre(g)`). */
  datatype GenreType = All | Genre(genre: GameGenreModel)

  /** `GameGenreModel.init(from:)`: a field-by-field copy. */
  function FromResult(r: GameGenreResult): (m: GameGenreModel)
    ensures m.id == r.id && m.name == r.name && m.slug == r.slug
    ensures m.gamesCount == r.gamesCount && m.imageBackground == r.imageBackground
  {
    GameGenreModel(r.id, r.name, r.slug, r.gamesCount, r.imageBackground)
  }

  /** `results.map { GameGenreModel(from: $0) }`. */
  function FromResults(rs: seq<GameGenreResult>): (ms: seq<GameGenreModel>)
    ensures |ms| == |rs|
    ensures forall i :: 0 <= i < |rs| ==> ms[i] == FromResult(rs[i])
  {
    if rs == [] then [] else [FromResult(rs[0])] + FromResults(rs[1..])
  }

  /** The custom `==` of `GameGenreModel`. */
  predicate Same(a: GameGenreModel, b: GameGenreModel)
  {
    a.id == b.id
  }

  /** `==` looks at the id only: equal ids make any two genres equal, however
      their names, slugs, counts and images differ, and different ids make
      them unequal. */
  lemma SameIffSameId(a: GameGenreModel, b: GameGenreModel)
    ensures Same(a, b) <==> a.id == b.id
    ensures a.id == b.id ==> Same(a, b.(name := a.name, slug := a.slug))
  {
  }

  /** `==` is an equivalence relation. */
  lemma SameIsEquivalence(a: GameGenreModel, b: GameGenreModel, c: GameGenreModel)
    ensures Same(a, a)
    ensures Same(a, b) ==> Same(b, a)
    ensures Same(a, b) && Same(b, c) ==> Same(a, c)
  {
  }

  /** Two genres decoded from results with the same id compare equal. */
  lemma SameIdResultsCompareEqual(r1: GameGenreResult, r2: GameGenreResult)
    requires r1.id == r2.id
    ensures Same(FromResult(r1), FromResult(r2))
  {
  }

  /** `[.all] + genres.map { GenreType.genre($0) }`, the genre strip of the
      list screens. */
  function GenreTypesFor(genres: seq<GameGenreModel>): (ts: seq<GenreType>)
    ensures |ts| == |genres| + 1
    ensures ts[0] == All
    ensures forall i :: 0 <= i < |genres| ==> ts[i + 1] == Genre(genres[i])
  {
    [All] + GenreList(genres)
  }

  function GenreList(genres: seq<GameGenreModel>): (ts: seq<GenreType>)
    ensures |ts| == |genres|
    ensures forall i :: 0 <= i < |genres| ==> ts[i] == Genre(genres[i])
  {
    if genres == [] then [] else [Genre(genres[0])] + GenreList(genres[1..])
  }

  /** A genre strip as `GenreTypesFor` builds it: `.all` first, then genres
      only. */
  predicate WellFormedGenreTypes(ts: seq<GenreType>)
  {
    ts == [] || (ts[0] == All && forall i :: 1 <= i < |ts| ==> ts[i].Genre?)
  }

  lemma GenreTypesForWellFormed(genres: seq<GameGenreModel>)
    ensures WellFormedGenreTypes(GenreTypesFor(genres))
  {
  }
}
