/** Home/View/HomeViewCell.swift: the auto-scrolling banner and the
    horizontal new-games strip of the home screen. */
module HomeCells {
  import opened Common
  import opened GameModels

  /** `games.firstIndex(of: game)`: the first position holding an equal
      game. */
  function FirstIndexOf(games: seq<GameListItemModel>, game: GameListItemModel): (r: Option<nat>)
    ensures r.Some? ==> r.value < |games| && games[r.value] == game
    ensures r.Some? ==> forall k :: 0 <= k < r.value ==> games[k] != game
    ensures r.None? <==> game !in games
  {
    if games == [] then None
    else if games[0] == game then Some(0)
    else
      match FirstIndexOf(games[1..], game)
      case None => None
      case Some(i) => Some(i + 1)
  }

  /** The tag a banner view gets: the first index of its game, or 0. */
  function TagFor(games: seq<GameListItemModel>, game: GameListItemModel): nat
  {
    match FirstIndexOf(games, game)
    case Some(i) => i
    case None => 0
  }

  /** Every banner built from the list gets a tag that indexes the list
      and names an equal game, no later than the banner's own position;
      duplicates share the tag of their first occurrence. */
  lemma BannerTagIsValid(games: seq<GameListItemModel>, k: int)
    requires 0 <= k < |games|
    ensures TagFor(games, games[k]) <= k
    ensures games[TagFor(games, games[k])] == games[k]
    ensures forall j :: 0 <= j < |games| && games[j] == games[k] ==> TagFor(games, games[j]) == TagFor(games, games[k])
  {
    assert games[k] in games;
  }

  /** One tick of the timer on a non-empty banner: `(i + 1) % count`. The
      index is never negative, so Swift's truncating `%` and Dafny's
      Euclidean `%` agree on it. */
  function NextIndex(i: int, count: int): (j: int)
    requires i >= 0 && count > 0
    ensures 0 <= j < count
  {
    (i + 1) % count
  }

  /** The index after k ticks from i. */
  function Ticks(i: int, count: int, k: nat): (j: int)
    requires i >= 0 && count > 0
    ensures j >= 0
  {
    if k == 0 then i else NextIndex(Ticks(i, count, k - 1), count)
  }

  /** The remainder is determined by any quotient-remainder split. */
  lemma {:induction false} ModUnique(x: int, count: int, q: int, r: int)
    requires count > 0 && 0 <= r < count && x == q * count + r
    ensures x % count == r
  {
    var q', r' := x / count, x % count;
    assert (q - q') * count == r' - r;
    if q > q' {
      assert (q - q') * count >= count by { MulAtLeast(q - q', count); }
    } else if q < q' {
      assert (q' - q) * count >= count by { MulAtLeast(q' - q, count); }
    }
  }

  lemma MulAtLeast(a: int, b: int)
    requires a >= 1 && b > 0
    ensures a * b >= b
  {
  }

  lemma {:induction false} ModSucc(x: nat, count: int)
    requires count > 0
    ensures (x % count + 1) % count == (x + 1) % count
  {
    var q, r := x / count, x % count;
    if r + 1 < count {
      ModUnique(r + 1, count, 0, r + 1);
      ModUnique(x + 1, count, q, r + 1);
    } else {
      ModUnique(r + 1, count, 1, 0);
      ModUnique(x + 1, count, q + 1, 0);
    }
  }

  /** From a non-negative index, k >= 1 ticks land on (i + k) % count, and
      from an index inside the banner, count ticks return to it. */
  lemma {:induction false} TicksClosedForm(i: nat, count: int, k: nat)
    requires count > 0
    ensures k >= 1 ==> Ticks(i, count, k) == (i + k) % count
    ensures i < count ==> Ticks(i, count, k) == (i + k) % count
  {
    if k == 0 {
    } else if k == 1 {
    } else {
      TicksClosedForm(i, count, k - 1);
      ModSucc(i + k - 1, count);
    }
  }

  lemma TicksReturnToStart(i: nat, count: int)
    requires count > 0 && i < count
    ensures Ticks(i, count, count) == i
    ensures forall k :: 0 < k < count ==> Ticks(i, count, k) != i
  {
    TicksClosedForm(i, count, count);
    ModUnique(i + count, count, 1, i);
    forall k | 0 < k < count
      ensures Ticks(i, count, k) != i
    {
      TicksClosedForm(i, count, k);
      if i + k < count {
        ModUnique(i + k, count, 0, i + k);
      } else {
        ModUnique(i + k, count, 1, i + k - count);
      }
    }
  }

  class BannerCell {
    var games: seq<GameListItemModel>
    var currentIndex: int
    /** `pageControl.numberOfPages` and `pageControl.currentPage`. */
    var pageCount: int
    var currentPage: int
    /** The `tag` of each banner view, in view order. */
    var bannerTags: seq<int>

    /** The index never goes negative, and each banner view's tag is the
        one `setupBannerViews` gives its game. */
    predicate Valid()
      reads this
    {
      currentIndex >= 0 &&
      |bannerTags| == |games| &&
      forall k :: 0 <= k < |games| ==> bannerTags[k] == TagFor(games, games[k])
    }

    constructor ()
      ensures Valid()
      ensures games == [] && bannerTags == []
      ensures currentIndex == 0 && pageCount == 0 && currentPage == 0
    {
      games := [];
      currentIndex := 0;
      pageCount := 0;
      currentPage := 0;
      bannerTags := [];
    }

    /** `configure(with:)`: replaces the games, rebuilds the banner views
        and sets the page count; the current index is NOT reset, so after a
        shorter list it may lie past the end until the next tick. */
    method Configure(newGames: seq<GameListItemModel>)
      requires Valid()
      modifies this`games, this`bannerTags, this`pageCount
      ensures Valid()
      ensures games == newGames && pageCount == |newGames|
    {
      games := newGames;
      SetupBannerViews();
      pageCount := |newGames|;
    }

    /** `setupBannerViews`: one tagged view per game, in order. */
    method SetupBannerViews()
      modifies this`bannerTags
      ensures |bannerTags| == |games|
      ensures forall k :: 0 <= k < |games| ==> bannerTags[k] == TagFor(games, games[k])
    {
      var tags: seq<int> := [];
      for index := 0 to |games|
        invariant |tags| == index
        invariant forall k :: 0 <= k < index ==> tags[k] == TagFor(games, games[k])
      {
        var found := FirstIndexOf(games, games[index]);
        var tag := if found.Some? then found.value else 0;
        tags := tags + [tag];
      }
      bannerTags := tags;
    }

    /** `scrollToNext`, run by the timer: nothing on an empty banner,
        otherwise advance cyclically and move the page indicator along. */
    method ScrollToNext()
      requires Valid()
      modifies this`currentIndex, this`currentPage
      ensures Valid()
      ensures games == [] ==> currentIndex == old(currentIndex) && currentPage == old(currentPage)
      ensures games != [] ==> currentIndex == NextIndex(old(currentIndex), |games|)
      ensures games != [] ==> 0 <= currentIndex < |games| && currentPage == currentIndex
    {
      if games == [] {
        return;
      }
      currentIndex := (currentIndex + 1) % |games|;
      currentPage := currentIndex;
    }

    /** `bannerTapped`: the game under a view's tag, when the tag indexes
        the list. */
    function BannerTapped(tag: int): (game: Option<GameListItemModel>)
      reads this
      ensures game.Some? <==> 0 <= tag < |games|
      ensures game.Some? ==> game.value == games[tag]
    {
      if 0 <= tag < |games| then Some(games[tag]) else None
    }
  }

  /** Tapping any banner view of a consistent cell delivers a game equal to
      the one the banner shows. */
  lemma BannerTapDeliversShownGame(cell: BannerCell, k: int)
    requires cell.Valid() && 0 <= k < |cell.games|
    ensures cell.BannerTapped(cell.bannerTags[k]) == Some(cell.games[k])
  {
    BannerTagIsValid(cell.games, k);
  }

  /** Three games, three ticks from the start: the banner comes back to
      the first game. Replacing the list by a single game keeps the index,
      and the next tick brings it back to 0. */
  method BannerScenario(a: GameListItemModel, b: GameListItemModel, c: GameListItemModel)
    returns (afterRound: int, afterShrink: int, afterTick: int)
    ensures afterRound == 0 && afterShrink == 2 && afterTick == 0
  {
    var cell := new BannerCell();
    cell.Configure([a, b, c]);
    cell.ScrollToNext();
    cell.ScrollToNext();
    cell.ScrollToNext();
    afterRound := cell.currentIndex;
    cell.ScrollToNext();
    cell.ScrollToNext();
    cell.Configure([a]);
    afterShrink := cell.currentIndex;
    cell.ScrollToNext();
    afterTick := cell.currentIndex;
  }

  /** `NewGameCell`: the horizontal strip fed by a publisher. */
  class NewGameCell {
    var games: seq<GameListItemModel>

    constructor ()
      ensures games == []
    {
      games := [];
    }

    /** The publisher's sink: each published list replaces the old one. */
    method ReceiveGames(published: seq<GameListItemModel>)
      modifies this`games
      ensures games == published
    {
      games := published;
    }

    /** `numberOfItemsInSection`. */
    function NumberOfItems(): (n: int)
      reads this
      ensures n == |games|
    {
      |games|
    }

    /** `didSelectItemAt`: reports the tapped game. */
    method DidSelectItemAt(index: int) returns (reported: GameListItemModel)
      requires 0 <= index < |games|
      ensures reported == games[index]
    {
      reported := games[index];
    }
  }

  /** Two publishes: the strip shows exactly the second list, not both. */
  method PublishScenario(first: seq<GameListItemModel>, second: seq<GameListItemModel>)
    returns (shown: seq<GameListItemModel>, count: int)
    ensures shown == second && count == |second|
  {
    var cell := new NewGameCell();
    cell.ReceiveGames(first);
    cell.ReceiveGames(second);
    shown := cell.games;
    count := cell.NumberOfItems();
  }
}
