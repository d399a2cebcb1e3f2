/** PopularGamePage/View/PopularGameViewCell.swift: the genre strip of the
    popular-games screen, which remembers the index of the selected chip. */
module PopularGenreList {
  import opened Common
  import opened GenreModel

  /** The `firstIndex` test of `configure`: `.all` matches `.all`, two
      genres match when their ids are equal, nothing else matches. */
  predicate MatchesSelection(t: GenreType, selected: GenreType)
  {
    match (t, selected)
    case (All, All) => true
    case (Genre(g1), Genre(g2)) => g1.id == g2.id
    case _ => false
  }

  /** On genres the test is the genres' own `==`. */
  lemma MatchesSelectionIsGenreEquality(g1: GameGenreModel, g2: GameGenreModel)
    ensures MatchesSelection(Genre(g1), Genre(g2)) <==> Same(g1, g2)
    ensures !MatchesSelection(All, Genre(g2)) && !MatchesSelection(Genre(g1), All)
    ensures MatchesSelection(All, All)
  {
  }

  /** `genreTypes.firstIndex { ... }`: the first matching position. */
  function FirstMatch(ts: seq<GenreType>, selected: GenreType): (r: Option<nat>)
    ensures r.Some? ==> r.value < |ts| && MatchesSelection(ts[r.value], selected)
    ensures r.Some? ==> forall k :: 0 <= k < r.value ==> !MatchesSelection(ts[k], selected)
    ensures r.None? ==> forall k :: 0 <= k < |ts| ==> !MatchesSelection(ts[k], selected)
  {
    if ts == [] then None
    else if MatchesSelection(ts[0], selected) then Some(0)
    else
      match FirstMatch(ts[1..], selected)
      case None => None
      case Some(i) => Some(i + 1)
  }

  /** The index `configure` selects for `selected`: the first match, or 0
      when nothing matches. */
  function SelectedIndexFor(ts: seq<GenreType>, selected: GenreType): (i: nat)
    ensures i < |ts| ==> (MatchesSelection(ts[i], selected) || (i == 0 && !MatchesSelection(ts[0], selected)))
    ensures (exists k :: 0 <= k < |ts| && MatchesSelection(ts[k], selected)) ==>
              i < |ts| && MatchesSelection(ts[i], selected) &&
              forall k :: 0 <= k < i ==> !MatchesSelection(ts[k], selected)
    ensures (forall k :: 0 <= k < |ts| ==> !MatchesSelection(ts[k], selected)) ==> i == 0
  {
    match FirstMatch(ts, selected)
    case Some(i) => i
    case None => 0
  }

  class PopularGenreListCell {
    var genreTypes: seq<GenreType>
    var selectedIndex: int

    constructor ()
      ensures genreTypes == [] && selectedIndex == 0
    {
      genreTypes := [];
      selectedIndex := 0;
    }

    /** `configure(with:selectedGenreType:)`: stores the strip; with a
        selection given, selects its first match (or 0); without one, keeps
        the old index, even if it is now past the end. */
    method Configure(types: seq<GenreType>, selected: Option<GenreType>)
      modifies this`genreTypes, this`selectedIndex
      ensures genreTypes == types
      ensures selected.None? ==> selectedIndex == old(selectedIndex)
      ensures selected.Some? ==> selectedIndex == SelectedIndexFor(types, selected.value)
    {
      genreTypes := types;
      if selected.Some? {
        var found := FirstMatch(types, selected.value);
        selectedIndex := if found.Some? then found.value else 0;
      }
    }

    /** `numberOfItemsInSection`. */
    function NumberOfItems(): (n: int)
      reads this
      ensures n == |genreTypes|
    {
      |genreTypes|
    }

    /** `cellForItemAt`: the chip at `index` is drawn selected exactly when
        it is at `selectedIndex`, so at most one chip is. */
    predicate RenderedSelected(index: int)
      reads this
    {
      index == selectedIndex
    }

    /** `didSelectItemAt`: reports the tapped type and selects it. */
    method DidSelectItemAt(index: int) returns (reported: GenreType)
      requires 0 <= index < |genreTypes|
      modifies this`selectedIndex
      ensures reported == genreTypes[index] && selectedIndex == index
      ensures forall k :: 0 <= k < |genreTypes| ==> (RenderedSelected(k) <==> k == index)
    {
      reported := genreTypes[index];
      selectedIndex := index;
    }
  }

  /** At most one chip is drawn selected. */
  lemma AtMostOneRenderedSelected(cell: PopularGenreListCell, i: int, j: int)
    requires cell.RenderedSelected(i) && cell.RenderedSelected(j)
    ensures i == j
  {
  }

  /** Configuring with a genre that is in the strip (under any name)
      selects the chip of that genre's id; configuring again without a
      selection and with a shorter strip leaves the index where it was, past
      the end. */
  method ConfigureScenario(g: GameGenreModel, h: GameGenreModel)
    returns (firstIndex: int, laterIndex: int, laterCount: int)
    requires g.id != h.id
    ensures firstIndex == 2 && laterIndex == 2 && laterCount == 1
  {
    var cell := new PopularGenreListCell();
    var strip := [All, Genre(h), Genre(g)];
    var wanted := Genre(g.(name := "renamed"));
    assert MatchesSelection(strip[2], wanted);
    assert !MatchesSelection(strip[0], wanted) && !MatchesSelection(strip[1], wanted);
    cell.Configure(strip, Some(wanted));
    firstIndex := cell.selectedIndex;
    cell.Configure([All], None);
    laterIndex := cell.selectedIndex;
    laterCount := |cell.genreTypes|;
  }
}
