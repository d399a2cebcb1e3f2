/** GameDtail/View/TableView/GameDetailCell.swift: the info cell (info pills
    and the description with HTML tags removed) and the rating cell (label
    texts and five star views). Layout, fonts and text measurement are not
    modelled. */
module GameDetailCells {
  import opened Common
  import opened GameModels

  // ---------------------------------------------------------------------
  // Removing HTML tags: every match of the regular expression `<[^>]+>`
  // replaced by nothing, scanning left to right.

  /** Position of the first '>' in `s`, if there is one. */
  function CloseIndex(s: string): (r: Option<nat>)
    ensures r.None? <==> '>' !in s
    ensures r.Some? ==> r.value < |s| && s[r.value] == '>' && '>' !in s[..r.value]
  {
    if s == [] then None
    else if s[0] == '>' then Some(0)
    else
      match CloseIndex(s[1..])
      case None => None
      case Some(j) =>
        assert s[..j + 1] == [s[0]] + s[1..][..j];
        Some(j + 1)
  }

  /** `<[^>]+>` matches at the start of `s`: a '<', then at least one
      character other than '>', then the first '>'. The match is
      `s[..TagEnd(s)]`. */
  predicate TagAtStart(s: string)
  {
    |s| > 0 && s[0] == '<' && CloseIndex(s[1..]).Some? && CloseIndex(s[1..]).value >= 1
  }

  function TagEnd(s: string): (n: nat)
    requires TagAtStart(s)
    ensures 3 <= n <= |s| && s[n - 1] == '>'
  {
    CloseIndex(s[1..]).value + 2
  }

  /** `description.replacingOccurrences(of: "<[^>]+>", with: "", options:
      .regularExpression)`. */
  function StripTags(s: string): (r: string)
    ensures |r| <= |s|
  {
    if s == [] then []
    else if TagAtStart(s) then StripTags(s[TagEnd(s)..])
    else [s[0]] + StripTags(s[1..])
  }

  /** Text with no '<' comes back unchanged. */
  lemma {:induction false} StripTagsWithoutAngle(s: string)
    requires '<' !in s
    ensures StripTags(s) == s
  {
    if s != [] {
      assert !TagAtStart(s);
      StripTagsWithoutAngle(s[1..]);
      assert s == [s[0]] + s[1..];
    }
  }

  /** Every character of the result comes from the input. */
  lemma {:induction false} StripTagsCharacters(s: string, c: char)
    requires c in StripTags(s)
    ensures c in s
  {
    if s != [] {
      if TagAtStart(s) {
        StripTagsCharacters(s[TagEnd(s)..], c);
      } else if c != s[0] {
        StripTagsCharacters(s[1..], c);
      }
    }
  }

  /** `a` is `b` with some characters left out, the rest in order. */
  predicate Subsequence(a: string, b: string)
    decreases |b|
  {
    if a == [] then true
    else if b == [] then false
    else if a[0] == b[0] then Subsequence(a[1..], b[1..])
    else Subsequence(a, b[1..])
  }

  lemma {:induction false} SubsequenceOfTail(a: string, b: string)
    requires b != [] && Subsequence(a, b[1..])
    ensures Subsequence(a, b)
    decreases |b|, 1
  {
    if a != [] && a[0] == b[0] {
      SubsequenceDropHead(a, b[1..]);
    }
  }

  lemma {:induction false} SubsequenceDropHead(a: string, b: string)
    requires a != [] && Subsequence(a, b)
    ensures Subsequence(a[1..], b)
    decreases |b|, 2
  {
    if b != [] {
      if a[0] == b[0] {
        if a[1..] != [] {
          SubsequenceOfTail(a[1..], b);
        }
      } else {
        SubsequenceDropHead(a, b[1..]);
        if a[1..] != [] {
          SubsequenceOfTail(a[1..], b);
        }
      }
    }
  }

  lemma {:induction false} SubsequenceOfSuffix(a: string, b: string, k: nat)
    requires k <= |b| && Subsequence(a, b[k..])
    ensures Subsequence(a, b)
    decreases k
  {
    if k > 0 {
      assert b[k..] == b[1..][k - 1..];
      SubsequenceOfSuffix(a, b[1..], k - 1);
      SubsequenceOfTail(a, b);
    }
  }

  /** The characters outside the removed tags are kept, in their order. */
  lemma {:induction false} StripTagsKeepsOrder(s: string)
    ensures Subsequence(StripTags(s), s)
    decreases |s|
  {
    if s != [] {
      if TagAtStart(s) {
        StripTagsKeepsOrder(s[TagEnd(s)..]);
        SubsequenceOfSuffix(StripTags(s), s, TagEnd(s));
      } else {
        StripTagsKeepsOrder(s[1..]);
      }
    }
  }

  /** In `w + ">" + v` with no '>' in `w`, the first '>' is the one after `w`. */
  lemma {:induction false} CloseIndexAfter(w: string, v: string)
    requires '>' !in w
    ensures CloseIndex(w + ['>'] + v) == Some(|w|)
  {
    if w != [] {
      assert (w + ['>'] + v)[1..] == w[1..] + ['>'] + v;
      CloseIndexAfter(w[1..], v);
    }
  }

  /** Text with no '<' in front of the rest is kept as it is. */
  lemma {:induction false} StripTagsKeepsPlainPrefix(u: string, v: string)
    requires '<' !in u
    ensures StripTags(u + v) == u + StripTags(v)
  {
    if u != [] {
      var s := u + v;
      assert s[0] == u[0] && !TagAtStart(s);
      assert s[1..] == u[1..] + v;
      StripTagsKeepsPlainPrefix(u[1..], v);
      assert u == [u[0]] + u[1..];
    } else {
      assert u + v == v;
    }
  }

  /** A tag `<w>` is removed and nothing else: the text before it and
      what remains of the text after it are kept. */
  lemma StripTagsAroundTag(u: string, w: string, v: string)
    requires '<' !in u && w != [] && '>' !in w
    ensures StripTags(u + ['<'] + w + ['>'] + v) == u + StripTags(v)
  {
    var t := ['<'] + w + ['>'] + v;
    assert u + ['<'] + w + ['>'] + v == u + t;
    assert t[1..] == w + ['>'] + v;
    CloseIndexAfter(w, v);
    assert TagAtStart(t) && TagEnd(t) == |w| + 2;
    assert t[|w| + 2..] == v;
    StripTagsKeepsPlainPrefix(u, t);
  }

  /** A '<' that starts no tag (no '>' follows, or "<>") is kept. */
  lemma StripTagsKeepsLoneAngle(v: string)
    requires !TagAtStart(['<'] + v)
    ensures StripTags(['<'] + v) == ['<'] + StripTags(v)
  {
    assert (['<'] + v)[1..] == v;
  }

  /** No match of `<[^>]+>` starts anywhere in `s`. */
  predicate TagFree(s: string)
  {
    forall i :: 0 <= i < |s| ==> !TagAtStart(s[i..])
  }

  /** What is left contains no further tag. */
  lemma {:induction false} StripTagsLeavesNoTag(s: string)
    ensures TagFree(StripTags(s))
    decreases |s|
  {
    if s != [] {
      if TagAtStart(s) {
        StripTagsLeavesNoTag(s[TagEnd(s)..]);
      } else {
        var t := StripTags(s[1..]);
        var r := [s[0]] + t;
        StripTagsLeavesNoTag(s[1..]);
        forall i | 1 <= i < |r|
          ensures !TagAtStart(r[i..])
        {
          assert r[i..] == t[i - 1..];
        }
        if s[0] == '<' {
          assert r[1..] == t;
          if CloseIndex(s[1..]).None? {
            if '>' in t {
              StripTagsCharacters(s[1..], '>');
            }
          } else {
            assert s[1] == '>';
            assert s[1..] == [s[1]] + s[2..];
            assert !TagAtStart(s[1..]);
            assert t[0] == '>';
          }
        }
        assert r[0..] == r;
      }
    }
  }

  /** The description text the info cell shows. */
  function DescriptionText(game: GameDetailModel): string
  {
    match game.description
    case Some(d) => StripTags(d)
    case None => "No description available."
  }

  // ---------------------------------------------------------------------
  // Info pills.

  /** The pills of the info cell, in the order the cell builds them. */
  datatype InfoPill = ReleasedPill(date: string) | TbaPill | EsrbPill(esrb: string) | UpdatedPill(date: string)

  function PillText(p: InfoPill): string
  {
    match p
    case ReleasedPill(d) => "Released: " + d
    case TbaPill => "TBA"
    case EsrbPill(e) => "ESRB: " + e
    case UpdatedPill(d) => "Updated: " + d
  }

  function PillRank(p: InfoPill): nat
  {
    match p
    case ReleasedPill(_) => 0
    case TbaPill => 1
    case EsrbPill(_) => 2
    case UpdatedPill(_) => 3
  }

  /** `game.esrbRating?.name`. */
  function EsrbName(game: GameDetailModel): Option<string>
  {
    if game.esrbRating.Some? then game.esrbRating.value.name else None
  }

  /** The pills for a game: release date, TBA, ESRB rating, update date,
      each when present. */
  function InfoPills(game: GameDetailModel): seq<InfoPill>
  {
    ReleasedPart(game) + TbaPart(game) + EsrbPart(game) + UpdatedPart(game)
  }

  function ReleasedPart(game: GameDetailModel): seq<InfoPill>
  {
    if game.released.Some? then [ReleasedPill(game.released.value)] else []
  }

  function TbaPart(game: GameDetailModel): seq<InfoPill>
  {
    if game.tba == Some(true) then [TbaPill] else []
  }

  function EsrbPart(game: GameDetailModel): seq<InfoPill>
  {
    if EsrbName(game).Some? then [EsrbPill(EsrbName(game).value)] else []
  }

  function UpdatedPart(game: GameDetailModel): seq<InfoPill>
  {
    if game.updated.Some? then [UpdatedPill(game.updated.value)] else []
  }

  /** Each pill appears exactly when its field is present (TBA exactly when
      `tba` is true). */
  lemma InfoPillsPresence(game: GameDetailModel)
    ensures forall d :: ReleasedPill(d) in InfoPills(game) <==> game.released == Some(d)
    ensures TbaPill in InfoPills(game) <==> game.tba == Some(true)
    ensures forall e :: EsrbPill(e) in InfoPills(game) <==> EsrbName(game) == Some(e)
    ensures forall d :: UpdatedPill(d) in InfoPills(game) <==> game.updated == Some(d)
  {
  }

  /** The pills come in the order Released, TBA, ESRB, Updated, none twice,
      so there are at most four. */
  lemma {:induction false} InfoPillsOrdered(game: GameDetailModel)
    ensures var ps := InfoPills(game);
      |ps| <= 4 && forall i, j :: 0 <= i < j < |ps| ==> PillRank(ps[i]) < PillRank(ps[j])
  {
    var r, t, e, u := ReleasedPart(game), TbaPart(game), EsrbPart(game), UpdatedPart(game);
    RankedConcat(r, t, 1);
    RankedConcat(r + t, e, 2);
    RankedConcat(r + t + e, u, 3);
  }

  predicate Ranked(ps: seq<InfoPill>)
  {
    forall i, j :: 0 <= i < j < |ps| ==> PillRank(ps[i]) < PillRank(ps[j])
  }

  /** Ranked pieces whose ranks are separated by `bound` stay ranked when
      joined. */
  lemma RankedConcat(ps: seq<InfoPill>, qs: seq<InfoPill>, bound: nat)
    requires Ranked(ps) && Ranked(qs)
    requires forall i :: 0 <= i < |ps| ==> PillRank(ps[i]) < bound
    requires forall j :: 0 <= j < |qs| ==> bound <= PillRank(qs[j])
    ensures Ranked(ps + qs)
  {
  }

  function PillTexts(ps: seq<InfoPill>): (ts: seq<string>)
    ensures |ts| == |ps|
    ensures forall i :: 0 <= i < |ps| ==> ts[i] == PillText(ps[i])
  {
    if ps == [] then [] else [PillText(ps[0])] + PillTexts(ps[1..])
  }

  lemma PillTextsAppend(ps: seq<InfoPill>, p: InfoPill)
    ensures PillTexts(ps + [p]) == PillTexts(ps) + [PillText(p)]
  {
    assert forall i :: 0 <= i < |ps| ==> (ps + [p])[i] == ps[i];
  }

  /** Label states. `OneDecimal(r)` is `String(format: "%.1f", r)`, whose
      rendering is not modelled. */
  datatype LabelText = NoText | Text(text: string) | OneDecimal(value: real)

  class GameInfoCell {
    var infoItems: seq<string>
    var descriptionLabel: LabelText

    constructor ()
      ensures infoItems == [] && descriptionLabel == NoText
    {
      infoItems := [];
      descriptionLabel := NoText;
    }

    /** `configure(with:)`: nothing happens without a game; otherwise the
        pills are rebuilt from scratch and the description is shown without
        tags. */
    method Configure(game: Option<GameDetailModel>)
      modifies this`infoItems, this`descriptionLabel
      ensures game.None? ==> infoItems == old(infoItems) && descriptionLabel == old(descriptionLabel)
      ensures game.Some? ==> infoItems == PillTexts(InfoPills(game.value))
      ensures game.Some? ==> descriptionLabel == Text(DescriptionText(game.value))
    {
      if game.None? {
        return;
      }
      var g := game.value;
      infoItems := [];
      ghost var pills: seq<InfoPill> := [];
      if g.released.Some? {
        pills := AppendPill(pills, ReleasedPill(g.released.value));
      }
      assert pills == ReleasedPart(g);
      if g.tba == Some(true) {
        pills := AppendPill(pills, TbaPill);
      }
      assert pills == ReleasedPart(g) + TbaPart(g);
      if g.esrbRating.Some? && g.esrbRating.value.name.Some? {
        pills := AppendPill(pills, EsrbPill(g.esrbRating.value.name.value));
      }
      assert pills == ReleasedPart(g) + TbaPart(g) + EsrbPart(g);
      if g.updated.Some? {
        pills := AppendPill(pills, UpdatedPill(g.updated.value));
      }
      assert pills == InfoPills(g);
      if g.description.Some? {
        descriptionLabel := Text(StripTags(g.description.value));
      } else {
        descriptionLabel := Text("No description available.");
      }
    }

    /** `infoItems.append(...)`: adds the text of one pill; `pills` tracks
        the pills behind the texts. */
    method AppendPill(ghost pills: seq<InfoPill>, p: InfoPill) returns (ghost pills': seq<InfoPill>)
      requires infoItems == PillTexts(pills)
      modifies this`infoItems
      ensures pills' == pills + [p] && infoItems == PillTexts(pills')
    {
      PillTextsAppend(pills, p);
      infoItems := infoItems + [PillText(p)];
      pills' := pills + [p];
    }

    /** `numberOfItemsInSection`: one item per pill. */
    function NumberOfItems(): (n: int)
      reads this
      ensures n == |infoItems|
    {
      |infoItems|
    }
  }

  // ---------------------------------------------------------------------
  // Stars.

  datatype StarImage = StarEmpty | StarFill | StarLeadingHalfFilled
  datatype Tint = SystemYellow | SystemGray3
  datatype StarView = StarView(image: StarImage, tint: Tint)

  /** `Int(rating)`: truncation toward zero. */
  function Truncate(x: real): (n: int)
    ensures x >= 0.0 ==> n as real <= x < n as real + 1.0
    ensures x < 0.0 ==> n as real - 1.0 < x <= n as real
  {
    if x >= 0.0 then x.Floor else -((-x).Floor)
  }

  /** `rating.truncatingRemainder(dividingBy: 1)`: the fractional part,
      with the sign of the rating. */
  function FractionalPart(x: real): (f: real)
    ensures -1.0 < f < 1.0
    ensures x >= 0.0 ==> f >= 0.0
  {
    x - Truncate(x) as real
  }

  /** The star at `index` for `rating`, as `updateStars` draws it. */
  function StarFor(index: int, rating: real): StarView
  {
    var fullStars := Truncate(rating);
    var hasHalfStar := FractionalPart(rating) >= 0.5;
    if index < fullStars then StarView(StarFill, SystemYellow)
    else if index == fullStars && hasHalfStar then StarView(StarLeadingHalfFilled, SystemYellow)
    else StarView(StarEmpty, SystemGray3)
  }

  /** Filled stars form a prefix, and at most one star is half filled,
      right after them. */
  lemma StarsShape(rating: real, i: int, j: int)
    requires i < j
    ensures StarFor(j, rating).image == StarFill ==> StarFor(i, rating).image == StarFill
    ensures StarFor(j, rating).image == StarLeadingHalfFilled ==> StarFor(i, rating).image == StarFill
    ensures StarFor(i, rating).image != StarFill ==> StarFor(j, rating).image == StarEmpty
  {
  }

  /** The value the five stars show: one per full star, a half per half
      star. */
  function StarValue(rating: real, n: nat): real
  {
    if n == 0 then 0.0
    else
      StarValue(rating, n - 1) +
      match StarFor(n - 1, rating).image
      case StarFill => 1.0
      case StarLeadingHalfFilled => 0.5
      case StarEmpty => 0.0
  }

  lemma {:induction false} StarValueCounts(rating: real, n: nat)
    requires 0 <= Truncate(rating)
    ensures Truncate(rating) >= n ==> StarValue(rating, n) == n as real
    ensures Truncate(rating) < n ==>
      StarValue(rating, n) == Truncate(rating) as real + (if FractionalPart(rating) >= 0.5 then 0.5 else 0.0)
  {
    if n > 0 {
      StarValueCounts(rating, n - 1);
    }
  }

  /** For a rating from 0 to 5 the stars show it rounded down to a half:
      the shown value is at most the rating and less than half a star
      below it. */
  lemma StarsShowRatingToHalf(rating: real)
    requires 0.0 <= rating <= 5.0
    ensures StarValue(rating, 5) <= rating < StarValue(rating, 5) + 0.5
  {
    StarValueCounts(rating, 5);
  }

  class RatingCell {
    var ratingLabel: LabelText
    var totalRatingsLabel: LabelText
    /** The five star image views of the star stack. */
    const stars: array<StarView>

    /** `setupUI`/`setupStars`: five empty yellow stars, labels blank. */
    constructor ()
      ensures fresh(stars) && stars.Length == 5
      ensures forall i :: 0 <= i < 5 ==> stars[i] == StarView(StarEmpty, SystemYellow)
      ensures ratingLabel == NoText && totalRatingsLabel == NoText
    {
      ratingLabel := NoText;
      totalRatingsLabel := NoText;
      stars := new StarView[5](_ => StarView(StarEmpty, SystemYellow));
    }

    /** `configure(with:)`: nothing happens without a game. A rating is
        shown with one decimal and drawn in the stars; without one the label
        reads "N/A" and the stars are left as they were. The count label
        reads "<n> ratings" or "No ratings". */
    method Configure(game: Option<GameDetailModel>)
      modifies this`ratingLabel, this`totalRatingsLabel, stars
      ensures game.None? ==>
                ratingLabel == old(ratingLabel) &&
                totalRatingsLabel == old(totalRatingsLabel) && unchanged(stars)
      ensures game.Some? && game.value.rating.Some? ==>
                ratingLabel == OneDecimal(game.value.rating.value) &&
                forall i :: 0 <= i < stars.Length ==> stars[i] == StarFor(i, game.value.rating.value)
      ensures game.Some? && game.value.rating.None? ==> ratingLabel == Text("N/A") && unchanged(stars)
      ensures game.Some? ==>
                totalRatingsLabel ==
                  if game.value.ratingsCount.Some? then Text(Decimal(game.value.ratingsCount.value) + " ratings")
                  else Text("No ratings")
    {
      if game.None? {
        return;
      }
      var g := game.value;
      if g.rating.Some? {
        ratingLabel := OneDecimal(g.rating.value);
        UpdateStars(g.rating.value);
      } else {
        ratingLabel := Text("N/A");
      }
      if g.ratingsCount.Some? {
        totalRatingsLabel := Text(Decimal(g.ratingsCount.value) + " ratings");
      } else {
        totalRatingsLabel := Text("No ratings");
      }
    }

    /** `updateStars(rating:)`: redraws every star view in turn. */
    method UpdateStars(rating: real)
      modifies stars
      ensures forall i :: 0 <= i < stars.Length ==> stars[i] == StarFor(i, rating)
    {
      var fullStars := Truncate(rating);
      var hasHalfStar := FractionalPart(rating) >= 0.5;
      for index := 0 to stars.Length
        invariant forall i :: 0 <= i < index ==> stars[i] == StarFor(i, rating)
      {
        if index < fullStars {
          stars[index] := StarView(StarFill, SystemYellow);
        } else if index == fullStars && hasHalfStar {
          stars[index] := StarView(StarLeadingHalfFilled, SystemYellow);
        } else {
          stars[index] := StarView(StarEmpty, SystemGray3);
        }
      }
    }
  }

  /** A 3.6 rating with 1200 ratings: three full stars, a half star and an
      empty one, and the count label. A game without rating afterwards
      leaves the stars as they were. */
  method RatingScenario(g: GameDetailModel)
    returns (images: seq<StarImage>, countLabel: LabelText, imagesAfterNoRating: seq<StarImage>)
    requires g.rating == Some(3.6) && g.ratingsCount == Some(1200)
    ensures images == [StarFill, StarFill, StarFill, StarLeadingHalfFilled, StarEmpty]
    ensures countLabel == Text(Decimal(1200) + " ratings")
    ensures imagesAfterNoRating == images
  {
    var cell := new RatingCell();
    cell.Configure(Some(g));
    assert Truncate(3.6) == 3;
    images := seq(5, i requires 0 <= i < 5 reads cell.stars => cell.stars[i].image);
    countLabel := cell.totalRatingsLabel;
    cell.Configure(Some(g.(rating := None)));
    imagesAfterNoRating := seq(5, i requires 0 <= i < 5 reads cell.stars => cell.stars[i].image);
  }

  /** Configuring the info cell for a second game keeps nothing of the
      first: a game with no dates, no TBA and no ESRB rating shows no pills
      and the placeholder description. */
  method InfoReconfigureScenario(first: GameDetailModel, second: GameDetailModel)
    returns (items: seq<string>, description: LabelText)
    requires second.released.None? && second.tba != Some(true) && second.esrbRating.None?
    requires second.updated.None? && second.description.None?
    ensures items == [] && description == Text("No description available.")
  {
    var cell := new GameInfoCell();
    cell.Configure(Some(first));
    cell.Configure(Some(second));
    items, description := cell.infoItems, cell.descriptionLabel;
  }
}
