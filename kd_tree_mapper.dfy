/**
 * The colour-to-material matcher. It is seeded with a list of material
 * combinations, a palette and a viewing orientation. It answers "which
 * combination best paints this colour?" in two stages: a shortlist of the
 * ten combinations whose average colour is nearest in RGB space, then a
 * re-ranking of that shortlist by the application's own colour distance.
 * Answers are memoised per exact colour until the next seeding.
 *
 * The KD-tree library is specified, not built: its ten-nearest query is the
 * stable sort of the seeded entries by squared RGB distance, cut to ten.
 */
module ColorMapper {
  import opened Wrappers
  import opened Drawing
  import opened Materials
  import Ranking

  /** The palette identifier of the "air" combination. */
  const AIR_COMBINATION_ID: int := 0

  /** How many nearest neighbours the index is asked for. */
  const SHORTLIST_SIZE: nat := 10

  /** A point of the three-dimensional index: the R, G and B of a colour. */
  datatype Rgb = Rgb(r: int, g: int, b: int)

  function RgbOf(c: PxColor): Rgb {
    Rgb(c.r, c.g, c.b)
  }

  /** The index's metric: squared Euclidean distance, alpha ignored. */
  function SquaredDistance(p: Rgb, q: Rgb): nat {
    Square(p.r - q.r) + Square(p.g - q.g) + Square(p.b - q.b)
  }

  function Square(x: int): nat {
    x * x
  }

  /** One entry of the index: a combination keyed by its average colour. */
  datatype IndexEntry = IndexEntry(point: Rgb, combo: MaterialCombination)

  /** Why a lookup fails (each is an exception in the source). */
  datatype MapperError =
    | Unseeded    // the palette or the index is still null
    | MissingAir  // the palette has no "air" entry
    | EmptyIndex  // nothing was seeded, so there is no nearest neighbour
    | NullCombos  // `SetSeedData` was handed a null list

  /** The entry `SetSeedData` adds for one combination. */
  function EntryFor(cb: MaterialCombination, averageColor: (MaterialCombination, bool) -> PxColor, isSideView: bool): IndexEntry {
    IndexEntry(RgbOf(averageColor(cb, isSideView)), cb)
  }

  /** The index built from `combos`: one entry per combination, in order. */
  function IndexEntries(combos: seq<MaterialCombination>, averageColor: (MaterialCombination, bool) -> PxColor, isSideView: bool): (r: seq<IndexEntry>)
    ensures |r| == |combos|
    ensures forall i :: 0 <= i < |combos| ==> r[i].combo == combos[i] && r[i].point == RgbOf(averageColor(combos[i], isSideView))
  {
    seq(|combos|, i requires 0 <= i < |combos| => EntryFor(combos[i], averageColor, isSideView))
  }

  /** Orders index entries by their squared RGB distance to `c`. */
  function NearnessKey(c: PxColor): IndexEntry -> int {
    (e: IndexEntry) => SquaredDistance(e.point, RgbOf(c))
  }

  /** Orders index entries by the application distance (`GetAverageColorDistance`) to `c`. */
  function DistanceKey(distance: (MaterialCombination, bool, PxColor) -> int, isSideView: bool, c: PxColor): IndexEntry -> int {
    (e: IndexEntry) => distance(e.combo, isSideView, c)
  }

  /** `GetNearestNeighbours(rgb(c), 10)`: the ten entries nearest to `c`, nearest first. */
  function Shortlist(index: seq<IndexEntry>, c: PxColor): seq<IndexEntry> {
    Ranking.Take(Ranking.SortBy(index, NearnessKey(c)), SHORTLIST_SIZE)
  }

  function CombosOf(entries: seq<IndexEntry>): (r: seq<MaterialCombination>)
    ensures |r| == |entries| && forall i :: 0 <= i < |entries| ==> r[i] == entries[i].combo
  {
    seq(|entries|, i requires 0 <= i < |entries| => entries[i].combo)
  }

  /** `Palette[MaterialCombinationIDForAir]`. */
  function AirLookup(palette: MaterialPalette): (r: Result<MaterialCombination, MapperError>)
    ensures r.Ok? <==> AIR_COMBINATION_ID in palette
    ensures r.Ok? ==> r.value == palette[AIR_COMBINATION_ID]
    ensures r.Err? ==> r.error == MissingAir
  {
    if AIR_COMBINATION_ID in palette then Ok(palette[AIR_COMBINATION_ID]) else Err(MissingAir)
  }

  /** The shortlist re-ranked by `MinBy`: the first shortlist entry of least application distance. */
  function NearestMatch(index: seq<IndexEntry>, isSideView: bool, distance: (MaterialCombination, bool, PxColor) -> int, c: PxColor): Result<MaterialCombination, MapperError> {
    var shortlist := Shortlist(index, c);
    if shortlist == [] then Err(EmptyIndex)
    else Ok(shortlist[Ranking.FirstMinIndex(shortlist, DistanceKey(distance, isSideView, c))].combo)
  }

  /** The uncached answer of `FindBestMatch` for the given state: the air short-circuit, then the index. */
  function BestMatch(
    kdTree: Option<seq<IndexEntry>>, palette: Option<MaterialPalette>, isSideView: bool,
    distance: (MaterialCombination, bool, PxColor) -> int, c: PxColor): Result<MaterialCombination, MapperError>
  {
    if IsTransparent(c) then
      if palette.None? then Err(Unseeded) else AirLookup(palette.value)
    else if kdTree.None? then Err(Unseeded)
    else NearestMatch(kdTree.value, isSideView, distance, c)
  }

  /** The shortlist re-ranked by `OrderBy` on the application distance, cut to `maxMatches`. */
  function RankedMatches(
    index: seq<IndexEntry>, isSideView: bool, distance: (MaterialCombination, bool, PxColor) -> int,
    c: PxColor, maxMatches: int): seq<MaterialCombination>
  {
    CombosOf(Ranking.Take(Ranking.SortBy(Shortlist(index, c), DistanceKey(distance, isSideView, c)), maxMatches))
  }

  /**
   * The shortlist holds min(10, |index|) entries taken from the index, and
   * every entry left out is at least as far from `c` as every entry kept.
   */
  lemma ShortlistIsNearest(index: seq<IndexEntry>, c: PxColor)
    ensures var shortlist := Shortlist(index, c);
      |shortlist| == (if |index| < SHORTLIST_SIZE then |index| else SHORTLIST_SIZE)
      && multiset(shortlist) <= multiset(index)
      && forall i, e :: 0 <= i < |shortlist| && e in multiset(index) - multiset(shortlist) ==>
           SquaredDistance(shortlist[i].point, RgbOf(c)) <= SquaredDistance(e.point, RgbOf(c))
  {
    var key := NearnessKey(c);
    var shortlist := Shortlist(index, c);
    Ranking.TakeSortedIsSmallest(index, key, SHORTLIST_SIZE);
    forall i, e | 0 <= i < |shortlist| && e in multiset(index) - multiset(shortlist)
      ensures SquaredDistance(shortlist[i].point, RgbOf(c)) <= SquaredDistance(e.point, RgbOf(c))
    {
      assert key(shortlist[i]) <= key(e);
    }
  }

  /** The shortlist lists its entries nearest first. */
  lemma ShortlistIsOrdered(index: seq<IndexEntry>, c: PxColor)
    ensures var shortlist := Shortlist(index, c);
      forall i, j :: 0 <= i < j < |shortlist| ==>
        SquaredDistance(shortlist[i].point, RgbOf(c)) <= SquaredDistance(shortlist[j].point, RgbOf(c))
  {
    var key := NearnessKey(c);
    var sorted := Ranking.SortBy(index, key);
    Ranking.SortByIsSorted(index, key);
    var shortlist := Shortlist(index, c);
    forall i, j | 0 <= i < j < |shortlist|
      ensures key(shortlist[i]) <= key(shortlist[j])
    {
      assert shortlist[i] == sorted[i] && shortlist[j] == sorted[j];
    }
  }

  /**
   * Away from the air short-circuit, the index answer fails only on an empty
   * index; otherwise it is a shortlisted combination of least application
   * distance, and no earlier shortlist entry ties with it.
   */
  lemma NearestMatchIsFirstMinimum(index: seq<IndexEntry>, isSideView: bool, distance: (MaterialCombination, bool, PxColor) -> int, c: PxColor)
    ensures var r := NearestMatch(index, isSideView, distance, c);
      var shortlist := Shortlist(index, c);
      (r.Err? <==> index == []) && (r.Err? ==> r.error == EmptyIndex)
      && (r.Ok? ==>
            exists i :: (0 <= i < |shortlist| && shortlist[i].combo == r.value
              && (forall j :: 0 <= j < |shortlist| ==> distance(r.value, isSideView, c) <= distance(shortlist[j].combo, isSideView, c))
              && (forall j :: 0 <= j < i ==> distance(r.value, isSideView, c) < distance(shortlist[j].combo, isSideView, c))))
  {
    ShortlistIsNearest(index, c);
    var shortlist := Shortlist(index, c);
    if shortlist != [] {
      var key := DistanceKey(distance, isSideView, c);
      var i := Ranking.FirstMinIndex(shortlist, key);
      assert shortlist[i].combo == NearestMatch(index, isSideView, distance, c).value;
    }
  }

  /**
   * `RankedMatches` is a prefix of the shortlist in non-decreasing
   * application distance, of length min(maxMatches, shortlist), and its
   * first element is the `NearestMatch` answer.
   */
  lemma RankedMatchesAreOrdered(
    index: seq<IndexEntry>, isSideView: bool, distance: (MaterialCombination, bool, PxColor) -> int,
    c: PxColor, maxMatches: int)
    ensures var r := RankedMatches(index, isSideView, distance, c, maxMatches);
      var shortlist := Shortlist(index, c);
      |r| == (if maxMatches <= 0 then 0 else if maxMatches < |shortlist| then maxMatches else |shortlist|)
      && (forall i, j :: 0 <= i < j < |r| ==> distance(r[i], isSideView, c) <= distance(r[j], isSideView, c))
      && (forall i :: 0 <= i < |r| ==> r[i] in multiset(CombosOf(shortlist)))
      && (|r| > 0 ==> NearestMatch(index, isSideView, distance, c) == Ok(r[0]))
    ensures var shortlist := Shortlist(index, c);
      var taken := Ranking.Take(Ranking.SortBy(shortlist, DistanceKey(distance, isSideView, c)), maxMatches);
      RankedMatches(index, isSideView, distance, c, maxMatches) == CombosOf(taken)
      && multiset(taken) <= multiset(shortlist)
      && forall i, e :: 0 <= i < |taken| && e in multiset(shortlist) - multiset(taken) ==>
           distance(taken[i].combo, isSideView, c) <= distance(e.combo, isSideView, c)
  {
    var shortlist := Shortlist(index, c);
    var key := DistanceKey(distance, isSideView, c);
    var sorted := Ranking.SortBy(shortlist, key);
    var taken := Ranking.Take(sorted, maxMatches);
    var r := RankedMatches(index, isSideView, distance, c, maxMatches);
    Ranking.SortByIsSorted(shortlist, key);
    forall i, j | 0 <= i < j < |r|
      ensures distance(r[i], isSideView, c) <= distance(r[j], isSideView, c)
    {
      assert taken[i] == sorted[i] && taken[j] == sorted[j];
      assert key(sorted[i]) <= key(sorted[j]);
    }
    forall i | 0 <= i < |r|
      ensures r[i] in multiset(CombosOf(shortlist))
    {
      assert taken[i] == sorted[i];
      assert sorted[i] in multiset(shortlist);
      var k :| 0 <= k < |shortlist| && shortlist[k] == sorted[i];
      assert CombosOf(shortlist)[k] == r[i];
    }
    if |r| > 0 {
      Ranking.TakeSortedHead(shortlist, key, maxMatches);
    }
    RankedMatchesKeepNearest(index, isSideView, distance, c, maxMatches);
  }

  /** The entries `RankedMatches` keeps are shortlist entries, none farther than an entry left out. */
  lemma RankedMatchesKeepNearest(
    index: seq<IndexEntry>, isSideView: bool, distance: (MaterialCombination, bool, PxColor) -> int,
    c: PxColor, maxMatches: int)
    ensures var shortlist := Shortlist(index, c);
      var taken := Ranking.Take(Ranking.SortBy(shortlist, DistanceKey(distance, isSideView, c)), maxMatches);
      RankedMatches(index, isSideView, distance, c, maxMatches) == CombosOf(taken)
      && multiset(taken) <= multiset(shortlist)
      && forall i, e :: 0 <= i < |taken| && e in multiset(shortlist) - multiset(taken) ==>
           distance(taken[i].combo, isSideView, c) <= distance(e.combo, isSideView, c)
  {
    var shortlist := Shortlist(index, c);
    var key := DistanceKey(distance, isSideView, c);
    var taken := Ranking.Take(Ranking.SortBy(shortlist, key), maxMatches);
    Ranking.TakeSortedIsSmallest(shortlist, key, maxMatches);
    forall i, e | 0 <= i < |taken| && e in multiset(shortlist) - multiset(taken)
      ensures distance(taken[i].combo, isSideView, c) <= distance(e.combo, isSideView, c)
    {
      assert key(taken[i]) <= key(e);
    }
  }

  /** Only a point at squared distance zero from `p` is `p` itself. */
  lemma ZeroDistanceIsSamePoint(p: Rgb, q: Rgb)
    requires SquaredDistance(p, q) == 0
    ensures p == q
  {
    SquareZero(p.r - q.r);
    SquareZero(p.g - q.g);
    SquareZero(p.b - q.b);
  }

  lemma SquareZero(x: int)
    requires Square(x) == 0
    ensures x == 0
  {
    if x != 0 {
      assert x * x > 0 by {
        if x > 0 { MulPositive(x, x); } else { MulPositive(-x, -x); }
      }
      assert false;
    }
  }

  lemma MulPositive(a: int, b: int)
    requires a > 0 && b > 0
    ensures a * b > 0
  {
  }

  /**
   * Self-match: a combination looked up by its own (opaque) average colour
   * is found, provided no two seeded combinations share an average RGB
   * point and the application distance ranks every other seeded
   * combination strictly farther from that colour.
   */
  lemma {:induction false} SelfMatch(
    combos: seq<MaterialCombination>, averageColor: (MaterialCombination, bool) -> PxColor, isSideView: bool,
    distance: (MaterialCombination, bool, PxColor) -> int, palette: Option<MaterialPalette>, k: int)
    requires 0 <= k < |combos|
    requires !IsTransparent(averageColor(combos[k], isSideView))
    requires forall i, j :: 0 <= i < j < |combos| ==>
      RgbOf(averageColor(combos[i], isSideView)) != RgbOf(averageColor(combos[j], isSideView))
    requires forall x :: x in combos && x != combos[k] ==>
      distance(x, isSideView, averageColor(combos[k], isSideView)) > distance(combos[k], isSideView, averageColor(combos[k], isSideView))
    ensures BestMatch(Some(IndexEntries(combos, averageColor, isSideView)), palette, isSideView, distance,
                      averageColor(combos[k], isSideView)) == Ok(combos[k])
  {
    var c := averageColor(combos[k], isSideView);
    var index := IndexEntries(combos, averageColor, isSideView);
    OwnEntryHeadsShortlist(combos, averageColor, isSideView, k);
    var shortlist := Shortlist(index, c);
    // the re-ranking cannot prefer any other shortlisted combination
    var dkey := DistanceKey(distance, isSideView, c);
    var j := Ranking.FirstMinIndex(shortlist, dkey);
    assert dkey(shortlist[j]) <= dkey(shortlist[0]);
    ShortlistIsNearest(index, c);
    assert shortlist[j] in multiset(index);
    var m :| 0 <= m < |index| && index[m] == shortlist[j];
    assert shortlist[j].combo == combos[m];
  }

  /** With distinct seeded points, a combination's own entry is the unique nearest one to its colour and heads the shortlist. */
  lemma OwnEntryHeadsShortlist(
    combos: seq<MaterialCombination>, averageColor: (MaterialCombination, bool) -> PxColor, isSideView: bool, k: int)
    requires 0 <= k < |combos|
    requires forall i, j :: 0 <= i < j < |combos| ==>
      RgbOf(averageColor(combos[i], isSideView)) != RgbOf(averageColor(combos[j], isSideView))
    ensures var index := IndexEntries(combos, averageColor, isSideView);
      var shortlist := Shortlist(index, averageColor(combos[k], isSideView));
      |shortlist| > 0 && shortlist[0] == index[k]
  {
    var c := averageColor(combos[k], isSideView);
    var index := IndexEntries(combos, averageColor, isSideView);
    var key := NearnessKey(c);
    assert index[k].point == RgbOf(c);
    assert key(index[k]) == 0;
    var i0 := Ranking.FirstMinIndex(index, key);
    assert key(index[i0]) == 0;
    ZeroDistanceIsSamePoint(index[i0].point, RgbOf(c));
    assert index[i0].point == RgbOf(averageColor(combos[i0], isSideView));
    assert i0 == k;
    Ranking.SortByHeadIsFirstMin(index, key, k);
  }

  /**
   * The matcher. `kdTree` and `palette` are null (None) until the first
   * seeding; `cache` maps exact colours to the answers already given.
   * `averageColor` and `colorDistance` are the combinations'
   * `GetAverageColor` and `GetAverageColorDistance`, which are not part of
   * this model.
   */
  class KdTreeMapper {
    const averageColor: (MaterialCombination, bool) -> PxColor
    const colorDistance: (MaterialCombination, bool, PxColor) -> int

    var cache: map<PxColor, MaterialCombination>
    var isSideView: bool
    var palette: Option<MaterialPalette>
    var kdTree: Option<seq<IndexEntry>>

    /** What a fresh, uncached computation answers for `c` in the current state. */
    function Resolve(c: PxColor): Result<MaterialCombination, MapperError>
      reads this
    {
      BestMatch(kdTree, palette, isSideView, colorDistance, c)
    }

    /**
     * The cache is empty until seeded, never holds a transparent colour,
     * and every entry is what a fresh computation would answer.
     */
    ghost predicate Valid()
      reads this
    {
      (kdTree.None? ==> cache == map[])
      && forall c :: c in cache ==> !IsTransparent(c) && Resolve(c) == Ok(cache[c])
    }

    /** `IsSeeded()`: the index exists. */
    predicate IsSeeded()
      reads this
    {
      kdTree.Some?
    }

    constructor (averageColor: (MaterialCombination, bool) -> PxColor, colorDistance: (MaterialCombination, bool, PxColor) -> int)
      ensures Valid() && !IsSeeded()
      ensures cache == map[] && palette.None?
      ensures this.averageColor == averageColor && this.colorDistance == colorDistance
    {
      this.averageColor := averageColor;
      this.colorDistance := colorDistance;
      cache := map[];
      isSideView := false;
      palette := None;
      kdTree := None;
    }

    /**
     * `SetSeedData`: forgets every cached answer, records the palette (which
     * may be null) and the orientation, starts an empty index, and then
     * indexes each combination by the RGB of its average colour in that
     * orientation, one entry per combination in order. A null list fails in
     * the loop, after the rest of the state has been replaced: the matcher
     * is then seeded with an empty index.
     */
    method SetSeedData(combos: Option<seq<MaterialCombination>>, palette: Option<MaterialPalette>, isSideView: bool)
      returns (r: Result<(), MapperError>)
      modifies this
      ensures Valid() && IsSeeded()
      ensures cache == map[]
      ensures this.palette == palette && this.isSideView == isSideView
      ensures combos.None? ==> r == Err(NullCombos) && kdTree == Some([])
      ensures combos.Some? ==> r == Ok(()) && kdTree == Some(IndexEntries(combos.value, averageColor, isSideView))
    {
      cache := map[];
      this.isSideView := isSideView;
      this.palette := palette;
      kdTree := Some([]);
      if combos.None? {
        return Err(NullCombos);
      }
      var list := combos.value;
      for i := 0 to |list|
        invariant cache == map[]
        invariant this.palette == palette && this.isSideView == isSideView
        invariant kdTree == Some(IndexEntries(list[..i], averageColor, isSideView))
      {
        kdTree := Some(kdTree.value + [EntryFor(list[i], averageColor, isSideView)]);
        assert IndexEntries(list[..i + 1], averageColor, isSideView)
          == IndexEntries(list[..i], averageColor, isSideView) + [EntryFor(list[i], averageColor, isSideView)];
      }
      assert list[..|list|] == list;
      r := Ok(());
    }

    /**
     * `FindBestMatch`: a cached colour gets its cached answer and the cache
     * is unchanged; a transparent colour gets the air combination without
     * being cached; any other colour gets the `NearestMatch` answer, which
     * is then cached under that colour and nowhere else. Whichever way it
     * goes, the answer is the fresh computation `Resolve(c)`.
     */
    method FindBestMatch(c: PxColor) returns (r: Result<MaterialCombination, MapperError>)
      requires Valid()
      modifies this`cache
      ensures Valid()
      ensures r == Resolve(c)
      ensures c in old(cache) ==> r == Ok(old(cache)[c]) && cache == old(cache)
      ensures c !in old(cache) && IsTransparent(c) ==> cache == old(cache)
      ensures c !in old(cache) && !IsTransparent(c) ==>
        cache == if r.Ok? then old(cache)[c := r.value] else old(cache)
    {
      if c in cache {
        return Ok(cache[c]);
      }
      if IsTransparent(c) {
        if palette.None? {
          return Err(Unseeded);
        }
        return AirLookup(palette.value);
      }
      if kdTree.None? {
        return Err(Unseeded);
      }
      r := NearestMatch(kdTree.value, isSideView, colorDistance, c);
      if r.Ok? {
        cache := cache[c := r.value];
      }
    }

    /** Two lookups of one colour with no seeding in between give the same answer. */
    method FindBestMatchTwice(c: PxColor) returns (first: Result<MaterialCombination, MapperError>, second: Result<MaterialCombination, MapperError>)
      requires Valid()
      modifies this`cache
      ensures Valid()
      ensures first == second
      ensures first.Ok? && !IsTransparent(c) ==> c in cache && cache[c] == first.value
    {
      first := FindBestMatch(c);
      second := FindBestMatch(c);
    }

    /**
     * `FindBestMatches`: never reads or writes the cache. A transparent
     * colour gets the one-element list holding air, whatever `maxMatches`
     * is; any other colour gets the shortlist ordered by application
     * distance and cut to `maxMatches`.
     */
    method FindBestMatches(c: PxColor, maxMatches: int) returns (r: Result<seq<MaterialCombination>, MapperError>)
      ensures IsTransparent(c) ==>
        r == if palette.None? then Err(Unseeded)
             else if AIR_COMBINATION_ID in palette.value then Ok([palette.value[AIR_COMBINATION_ID]])
             else Err(MissingAir)
      ensures !IsTransparent(c) ==>
        r == if kdTree.None? then Err(Unseeded)
             else Ok(RankedMatches(kdTree.value, isSideView, colorDistance, c, maxMatches))
    {
      if IsTransparent(c) {
        if palette.None? {
          return Err(Unseeded);
        }
        var air := AirLookup(palette.value);
        if air.Err? {
          return Err(air.error);
        }
        return Ok([air.value]);
      }
      if kdTree.None? {
        return Err(Unseeded);
      }
      var shortlist := Shortlist(kdTree.value, c);
      var ordered := Ranking.SortBy(shortlist, DistanceKey(colorDistance, isSideView, c));
      r := Ok(CombosOf(Ranking.Take(ordered, maxMatches)));
    }
  }
}
