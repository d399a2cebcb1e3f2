/** NewGamePage/View/NewGameViewCell.swift: the genre strip and the
    three-column game grid of the new-games screen. */
module NewGameCells {
  import opened GameModels
  import opened GenreModel

  /** Cell height, inter-row spacing and the section's vertical insets of
      the grid, in points. */
  const CellHeight := 160
  const RowSpacing := 16
  const VerticalInsets := 32

  /** `(games.count + 2) / 3`: the number of rows of three. */
  function Rows(n: nat): (rows: nat)
  {
    (n + 2) / 3
  }

  /** The row count is the ceiling of n / 3. */
  lemma RowsIsCeiling(n: nat)
    ensures 3 * Rows(n) >= n
    ensures n > 0 ==> 3 * (Rows(n) - 1) < n
    ensures n == 0 <==> Rows(n) == 0
  {
  }

  /** The height `configure` gives the grid for n games. */
  function GridHeight(n: nat): (h: int)
  {
    Rows(n) * CellHeight + (Rows(n) - 1) * RowSpacing + VerticalInsets
  }

  /** The height is 176 points per row plus 16, so an empty grid is 16
      points tall rather than 0. */
  lemma GridHeightClosedForm(n: nat)
    ensures GridHeight(n) == 176 * Rows(n) + 16
    ensures n == 0 ==> GridHeight(n) == 16
    ensures GridHeight(n) >= 16
  {
  }

  /** More games never make the grid shorter. */
  lemma {:induction false} GridHeightMonotone(n: nat, m: nat)
    requires n <= m
    ensures GridHeight(n) <= GridHeight(m)
  {
    GridHeightClosedForm(n);
    GridHeightClosedForm(m);
  }

  /** Adding one game changes the height exactly when the grid was full,
      i.e. when the count crosses a multiple of three; the new row adds 176
      points. */
  lemma GridHeightStep(n: nat)
    ensures GridHeight(n + 1) != GridHeight(n) <==> n % 3 == 0
    ensures n % 3 == 0 ==> GridHeight(n + 1) == GridHeight(n) + 176
    ensures n % 3 != 0 ==> GridHeight(n + 1) == GridHeight(n)
  {
    GridHeightClosedForm(n);
    GridHeightClosedForm(n + 1);
  }

  /** `NGgenreListCell`: the genre chips. */
  class GenreListCell {
    var genres: seq<GameGenreModel>

    constructor ()
      ensures genres == []
    {
      genres := [];
    }

    /** `configure(with:)`: replaces the chips. */
    method Configure(newGenres: seq<GameGenreModel>)
      modifies this`genres
      ensures genres == newGenres
    {
      genres := newGenres;
    }

    /** `numberOfItemsInSection`. */
    function NumberOfItems(): (n: int)
      reads this
      ensures n == |genres|
    {
      |genres|
    }

    /** `cellForItemAt`: a freshly built chip is drawn selected only at
        index 0, whatever was tapped before. */
    function RenderedSelected(index: int): (selected: bool)
      reads this
      ensures selected ==> index == 0
      ensures index == 0 ==> selected
    {
      index == 0
    }

    /** `didSelectItemAt`: reports the tapped genre; the strip keeps no
        selection state of its own. */
    method DidSelectItemAt(index: int) returns (reported: GameGenreModel)
      requires 0 <= index < |genres|
      ensures reported == genres[index]
    {
      reported := genres[index];
    }
  }

  /** `NGgameListCell`: the grid of games and its height constraint. */
  class GameListCell {
    var games: seq<GameListItemModel>
    var heightConstraint: int

    /** `setupUI` creates the height constraint at 100 points. */
    constructor ()
      ensures games == [] && heightConstraint == 100
    {
      games := [];
      heightConstraint := 100;
    }

    /** `configure(with:)`: replaces the games and resizes the grid. */
    method Configure(newGames: seq<GameListItemModel>)
      modifies this
      ensures games == newGames
      ensures heightConstraint == GridHeight(|newGames|)
    {
      games := newGames;
      var rows := (|newGames| + 2) / 3;
      heightConstraint := rows * CellHeight + (rows - 1) * RowSpacing + VerticalInsets;
    }

    /** `numberOfItemsInSection`. */
    function NumberOfItems(): (n: int)
      reads this
      ensures n == |games|
    {
      |games|
    }

    /** `didSelectItemAt`: reports the tapped game. */
    method DidSelectItemAt(index: int) returns (reported: GameListItemModel)
      requires 0 <= index < |games|
      ensures reported == games[index]
    {
      reported := games[index];
    }
  }

  /** Seven games need three rows: 3 * 176 + 16 points. Configuring an
      empty list afterwards shrinks the grid to 16 points, not 0. */
  method GridScenario(seven: seq<GameListItemModel>) returns (full: int, empty: int)
    requires |seven| == 7
    ensures full == 544 && empty == 16
  {
    var cell := new GameListCell();
    cell.Configure(seven);
    full := cell.heightConstraint;
    cell.Configure([]);
    empty := cell.heightConstraint;
  }
}
