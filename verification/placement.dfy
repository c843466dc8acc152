/**
 * Spatial placement: the fixed pool of twelve hazard positions, the
 * exclusion zones, the initial hazard selection without replacement,
 * recyclable placement on platforms, and the search for a hazard's new
 * position after it hits the player.
 */
module Placement {
  import opened Wrappers
  import opened Geometry

  /** The strict rectangle around the player's starting area. */
  const SafeZone: Box := Box(45.0, 115.0, 110.0, 125.0)

  /** Half-side of the box kept clear around every recyclable. */
  const RecyclableMargin: real := 15.0

  /** Half-side of the box kept clear around every other hazard on relocation. */
  const HazardMargin: real := 20.0

  /** Ground tier (4), mid tier (4) and upper tier (4) of candidate hazard positions. */
  const Pool: seq<Point> := [
    Point(25.0, 115.0), Point(135.0, 115.0), Point(30.0, 115.0), Point(130.0, 115.0),
    Point(50.0, 105.0), Point(110.0, 105.0), Point(60.0, 95.0), Point(100.0, 95.0),
    Point(70.0, 75.0), Point(90.0, 75.0), Point(65.0, 65.0), Point(95.0, 65.0)
  ]

  predicate Distinct<T(==)>(s: seq<T>) {
    forall i, j :: 0 <= i < j < |s| ==> s[i] != s[j]
  }

  /** No candidate position lies inside the safe zone, so that test never rejects one. */
  lemma PoolClearOfSafeZone()
    ensures forall k :: 0 <= k < |Pool| ==> !StrictlyInside(Pool[k], SafeZone)
  {
  }

  lemma PoolDistinct()
    ensures Distinct(Pool)
  {
  }

  // ---------------------------------------------------------------- zones

  function Boxes(centres: seq<Point>, margin: real): seq<Box> {
    seq(|centres|, k requires 0 <= k < |centres| => Around(centres[k], margin))
  }

  predicate InAny(p: Point, zones: seq<Box>) {
    exists k :: 0 <= k < |zones| && StrictlyInside(p, zones[k])
  }

  /** The loop that builds one exclusion box per centre. */
  method ZonesAround(centres: seq<Point>, margin: real) returns (zones: seq<Box>)
    ensures |zones| == |centres|
    ensures forall k :: 0 <= k < |centres| ==> zones[k] == Around(centres[k], margin)
    ensures zones == Boxes(centres, margin)
  {
    zones := [];
    var i := 0;
    while i < |centres|
      invariant 0 <= i <= |centres|
      invariant |zones| == i
      invariant forall k :: 0 <= k < i ==> zones[k] == Around(centres[k], margin)
    {
      zones := zones + [Around(centres[i], margin)];
      i := i + 1;
    }
  }

  /** The inner zone loop with its early `break`. */
  method HitsAnyZone(p: Point, zones: seq<Box>) returns (hit: bool)
    ensures hit <==> InAny(p, zones)
  {
    hit := false;
    var i := 0;
    while i < |zones|
      invariant 0 <= i <= |zones|
      invariant forall k :: 0 <= k < i ==> !StrictlyInside(p, zones[k])
    {
      var z := zones[i];
      if p.x > z.left && p.x < z.right && p.y > z.top && p.y < z.bottom {
        hit := true;
        return;
      }
      i := i + 1;
    }
  }

  // ----------------------------------------------- initial hazard placement

  /** A pool position together with its drawn "moving" flag. */
  datatype Spot = Spot(at: Point, moving: bool)

  function Spots(flags: seq<bool>): seq<Spot>
    requires |flags| == |Pool|
  {
    seq(|Pool|, i requires 0 <= i < |Pool| => Spot(Pool[i], flags[i]))
  }

  /** Two spots of one pool draw are equal exactly when their positions are. */
  lemma SpotsPositionsDistinct(flags: seq<bool>)
    requires |flags| == |Pool|
    ensures forall s, t :: s in Spots(flags) && t in Spots(flags) && s.at == t.at ==> s == t
  {
    PoolDistinct();
  }

  predicate StartOk(p: Point, zones: seq<Box>) {
    !StrictlyInside(p, SafeZone) && !InAny(p, zones)
  }

  /** The pool positions kept for initial placement, in pool order. */
  function StartSpots(spots: seq<Spot>, zones: seq<Box>): (r: seq<Spot>)
    ensures |r| <= |spots|
    ensures forall s :: s in r <==> s in spots && StartOk(s.at, zones)
    decreases |spots|
  {
    if spots == [] then []
    else
      var last := spots[|spots| - 1];
      assert spots == spots[..|spots| - 1] + [last];
      var init := StartSpots(spots[..|spots| - 1], zones);
      if StartOk(last.at, zones) then init + [last] else init
  }

  lemma {:induction false} StartSpotsDistinct(spots: seq<Spot>, zones: seq<Box>)
    requires Distinct(spots)
    ensures Distinct(StartSpots(spots, zones))
    decreases |spots|
  {
    if spots != [] {
      var init := spots[..|spots| - 1];
      assert Distinct(init);
      StartSpotsDistinct(init, zones);
      var last := spots[|spots| - 1];
      assert last !in init;
    }
  }

  /** The filter loop of initial placement (safe zone first, then the recyclable zones). */
  method FilterStartSpots(spots: seq<Spot>, zones: seq<Box>) returns (valid: seq<Spot>)
    ensures valid == StartSpots(spots, zones)
  {
    valid := [];
    var i := 0;
    while i < |spots|
      invariant 0 <= i <= |spots|
      invariant valid == StartSpots(spots[..i], zones)
    {
      var pos := spots[i];
      var isValid := true;
      if pos.at.x > SafeZone.left && pos.at.x < SafeZone.right && pos.at.y > SafeZone.top && pos.at.y < SafeZone.bottom {
        isValid := false;
      }
      if isValid {
        var hit := HitsAnyZone(pos.at, zones);
        if hit {
          isValid := false;
        }
      }
      if isValid {
        valid := valid + [pos];
      }
      assert spots[..i + 1][..i] == spots[..i];
      i := i + 1;
    }
    assert spots[..|spots|] == spots;
  }

  // ----------------------------------------------- selection without replacement

  /** `s.splice(i, 1)`: drop the element at `i`, the others keep their order. */
  function Splice<T>(s: seq<T>, i: nat): (r: seq<T>)
    requires i < |s|
    ensures |r| == |s| - 1
    ensures forall x :: x in r ==> x in s
  {
    s[..i] + s[i + 1..]
  }

  /** The k-th draw indexes a list that has already lost k elements. */
  predicate PicksFit(picks: seq<nat>, size: nat, n: nat) {
    n <= size && n <= |picks| && forall k :: 0 <= k < n ==> picks[k] < size - k
  }

  lemma PicksShift(picks: seq<nat>, size: nat, n: nat)
    requires n > 0 && PicksFit(picks, size, n)
    ensures PicksFit(picks[1..], size - 1, n - 1)
  {
    forall k | 0 <= k < n - 1 ensures picks[1..][k] < size - 1 - k {
      assert picks[1..][k] == picks[k + 1];
    }
  }

  /** The first `n` elements drawn from `s` by the index draws `picks`, each drawn element spliced out. */
  function Drawn<T>(s: seq<T>, picks: seq<nat>, n: nat): (r: seq<T>)
    requires PicksFit(picks, |s|, n)
    ensures |r| == n
    ensures forall i :: 0 <= i < n ==> r[i] in s
    decreases n
  {
    if n == 0 then []
    else
      var rest := Splice(s, picks[0]);
      PicksShift(picks, |s|, n);
      [s[picks[0]]] + Drawn(rest, picks[1..], n - 1)
  }

  lemma {:induction false} SpliceDistinct<T>(s: seq<T>, i: nat)
    requires i < |s| && Distinct(s)
    ensures Distinct(Splice(s, i)) && s[i] !in Splice(s, i)
  {
  }

  /** Drawing without replacement from distinct elements gives distinct elements. */
  lemma {:induction false} DrawnDistinct<T>(s: seq<T>, picks: seq<nat>, n: nat)
    requires PicksFit(picks, |s|, n) && Distinct(s)
    ensures Distinct(Drawn(s, picks, n))
    decreases n
  {
    if n > 0 {
      var head := s[picks[0]];
      var rest := Splice(s, picks[0]);
      SpliceDistinct(s, picks[0]);
      PicksShift(picks, |s|, n);
      DrawnDistinct(rest, picks[1..], n - 1);
      var tail := Drawn(rest, picks[1..], n - 1);
      var r := Drawn(s, picks, n);
      assert r == [head] + tail;
      forall j | 0 <= j < |tail| ensures tail[j] != head {
        assert tail[j] in rest;
      }
    }
  }

  function MinCount(count: nat, size: nat): nat {
    if count < size then count else size
  }

  /**
   * The selection loop: draw a random index into the remaining list, take
   * that element and splice it out, until `count` are taken or none remain.
   */
  method SelectPositions<T>(valid: seq<T>, count: nat, picks: seq<nat>) returns (selected: seq<T>)
    requires PicksFit(picks, |valid|, MinCount(count, |valid|))
    ensures selected == Drawn(valid, picks, MinCount(count, |valid|))
  {
    var n := MinCount(count, |valid|);
    selected := [];
    var temp := valid;
    while |selected| < count && |temp| > 0
      invariant |selected| <= n
      invariant |temp| == |valid| - |selected|
      invariant PicksFit(picks[|selected|..], |temp|, n - |selected|)
      invariant selected + Drawn(temp, picks[|selected|..], n - |selected|) == Drawn(valid, picks, n)
      decreases |temp|
    {
      var k := |selected|;
      var idx := picks[k];
      DrawStep(temp, picks, k, n - k);
      selected := selected + [temp[idx]];
      temp := Splice(temp, idx);
    }
  }

  /** One turn of the selection loop, stated on the remaining list `s` and the draws from `k` on. */
  lemma DrawStep<T>(s: seq<T>, picks: seq<nat>, k: nat, m: nat)
    requires k < |picks| && m > 0 && PicksFit(picks[k..], |s|, m)
    ensures picks[k] < |s|
    ensures PicksFit(picks[k + 1..], |s| - 1, m - 1)
    ensures Drawn(s, picks[k..], m) == [s[picks[k]]] + Drawn(Splice(s, picks[k]), picks[k + 1..], m - 1)
  {
    assert picks[k..][0] == picks[k];
    assert picks[k..][1..] == picks[k + 1..];
    PicksShift(picks[k..], |s|, m);
  }

  /**
   * Every selected spot is a pool position that passed the filter, and no
   * position is selected twice.
   */
  lemma StartPlacementSound(flags: seq<bool>, zones: seq<Box>, picks: seq<nat>, n: nat)
    requires |flags| == |Pool|
    requires PicksFit(picks, |StartSpots(Spots(flags), zones)|, n)
    ensures var r := Drawn(StartSpots(Spots(flags), zones), picks, n);
      && (forall i :: 0 <= i < |r| ==> r[i].at in Pool && StartOk(r[i].at, zones))
      && (forall i, j :: 0 <= i < j < |r| ==> r[i].at != r[j].at)
  {
    var all := Spots(flags);
    var valid := StartSpots(all, zones);
    var r := Drawn(valid, picks, n);
    PoolDistinct();
    assert Distinct(all);
    StartSpotsDistinct(all, zones);
    DrawnDistinct(valid, picks, n);
    SpotsPositionsDistinct(flags);
  }

  // ----------------------------------------------- recyclable placement

  /** A platform wide enough and inside the playable band to carry a recyclable. */
  predicate ItemPlatform(p: Platform) {
    p.width > 15 && 15.0 < p.x < 145.0 && p.y < 115.0
  }

  /** The eligible platforms, in enumeration order. */
  function ItemPlatforms(ps: seq<Platform>): (r: seq<Platform>)
    ensures |r| <= |ps|
    ensures forall i :: 0 <= i < |r| ==> ItemPlatform(r[i])
    decreases |ps|
  {
    if ps == [] then []
    else
      var last := ps[|ps| - 1];
      assert ps == ps[..|ps| - 1] + [last];
      var init := ItemPlatforms(ps[..|ps| - 1]);
      if ItemPlatform(last) then init + [last] else init
  }

  /** Exactly the eligible platforms of `ps` survive the filter. */
  lemma {:induction false} ItemPlatformsMembers(ps: seq<Platform>, p: Platform)
    ensures p in ItemPlatforms(ps) <==> p in ps && ItemPlatform(p)
    decreases |ps|
  {
    if ps != [] {
      var init := ps[..|ps| - 1];
      assert ps == init + [ps[|ps| - 1]];
      ItemPlatformsMembers(init, p);
    }
  }

  method FilterItemPlatforms(ps: seq<Platform>) returns (valid: seq<Platform>)
    ensures valid == ItemPlatforms(ps)
  {
    valid := [];
    var i := 0;
    while i < |ps|
      invariant 0 <= i <= |ps|
      invariant valid == ItemPlatforms(ps[..i])
    {
      var platform := ps[i];
      if platform.width > 15 && platform.x > 15.0 && platform.x < 145.0 && platform.y < 115.0 {
        valid := valid + [platform];
      }
      assert ps[..i + 1][..i] == ps[..i];
      i := i + 1;
    }
    assert ps[..|ps|] == ps;
  }

  /** Number of random offsets tried before the fallback draw. */
  const MaxAttempts: nat := 10

  /** The leftmost and rightmost x a recyclable may take: 8 units in from each edge. */
  function ItemLow(p: Platform): real {
    PlatformLeft(p) + 8.0
  }

  function ItemHigh(p: Platform): real {
    PlatformRight(p) - 8.0
  }

  /** A recyclable's centre is 8 units above the platform top. */
  function ItemY(p: Platform): real {
    PlatformTop(p) - 8.0
  }

  /** A uniform draw on [0, 1]. */
  predicate UnitDraw(f: real) {
    0.0 <= f <= 1.0
  }

  /**
   * The x drawn between `ItemLow(p)` and `ItemHigh(p)` by the unit draw `f`:
   * the low end plus the fraction `f` of the range. The range is never empty
   * on an eligible platform, whose width is at least 16.
   */
  function ItemX(p: Platform, f: real): (x: real)
    requires ItemPlatform(p) && UnitDraw(f)
    ensures ItemLow(p) <= x <= ItemHigh(p)
  {
    var w := ItemHigh(p) - ItemLow(p);
    assert 0.0 <= f * w <= w by {
      assert w >= 0.0;
      assert f * w <= 1.0 * w;
    }
    ItemLow(p) + f * w
  }

  /** Every x of the range is reached by some unit draw. */
  lemma ItemXCovers(p: Platform, x: real)
    requires ItemPlatform(p) && ItemLow(p) <= x <= ItemHigh(p)
    ensures exists f :: UnitDraw(f) && ItemX(p, f) == x
  {
    var w := ItemHigh(p) - ItemLow(p);
    if w == 0.0 {
      assert ItemX(p, 0.0) == x;
    } else {
      var f := (x - ItemLow(p)) / w;
      assert f * w == x - ItemLow(p);
      assert UnitDraw(f) by {
        assert 0.0 <= x - ItemLow(p) <= w;
      }
      assert ItemX(p, f) == x;
    }
  }

  /** The platform picked by the index draw `c` among the non-empty `valid`. */
  function ChosenPlatform(valid: seq<Platform>, c: nat): (p: Platform)
    requires valid != []
    ensures c < |valid| ==> p == valid[c]
  {
    valid[c % |valid|]
  }

  /** Whatever the draw, the chosen platform is one of `valid`. */
  lemma ChosenPlatformIn(valid: seq<Platform>, c: nat)
    requires valid != []
    ensures ChosenPlatform(valid, c) in valid
  {
    var i := c % |valid|;
    assert valid[i] == ChosenPlatform(valid, c);
  }

  /**
   * At least 20 units from every hazard. The source compares the square root
   * of the squared distance with 20; both sides are non-negative, so this
   * squared comparison with 400 is the same test.
   */
  predicate ClearOfHazards(pt: Point, hs: seq<Hazard>) {
    forall k :: 0 <= k < |hs| ==> SqDist(pt, Position(hs[k])) >= 400.0
  }

  /** The hazard-distance loop with its early `break`. */
  method FarFromHazards(pt: Point, hs: seq<Hazard>) returns (safe: bool)
    ensures safe <==> ClearOfHazards(pt, hs)
  {
    safe := true;
    var i := 0;
    while i < |hs|
      invariant 0 <= i <= |hs|
      invariant forall k :: 0 <= k < i ==> SqDist(pt, Position(hs[k])) >= 400.0
    {
      var dx := pt.x - hs[i].x;
      var dy := pt.y - hs[i].y;
      assert SqDist(pt, Position(hs[i])) == dx * dx + dy * dy;
      if dx * dx + dy * dy < 400.0 {
        safe := false;
        return;
      }
      i := i + 1;
    }
  }

  /** Ten unit draws for the attempts. */
  predicate AttemptDraws(attempts: seq<real>) {
    |attempts| == MaxAttempts && forall k :: 0 <= k < MaxAttempts ==> UnitDraw(attempts[k])
  }

  /** Where attempt `k` would put the recyclable. */
  function AttemptAt(plat: Platform, attempts: seq<real>, k: nat): Point
    requires ItemPlatform(plat) && AttemptDraws(attempts) && k < MaxAttempts
  {
    Point(ItemX(plat, attempts[k]), ItemY(plat))
  }

  /**
   * A recyclable at `pos` placed on `plat` with the tries `attempts`: on the
   * platform's item band, and clear of every hazard whenever one of the
   * tries was.
   */
  predicate ItemOk(pos: Point, plat: Platform, attempts: seq<real>, hs: seq<Hazard>)
    requires ItemPlatform(plat) && AttemptDraws(attempts)
  {
    && pos.y == ItemY(plat)
    && ItemLow(plat) <= pos.x <= ItemHigh(plat)
    && ((exists k :: 0 <= k < MaxAttempts && ClearOfHazards(AttemptAt(plat, attempts, k), hs)) ==> ClearOfHazards(pos, hs))
  }

  /**
   * Place one recyclable on `plat`: try the offsets drawn by `attempts` in
   * order and keep the first one clear of every hazard; if none is, use the
   * fresh `fallback` draw (not the last attempt).
   */
  method PlaceItem(plat: Platform, hs: seq<Hazard>, attempts: seq<real>, fallback: real) returns (pos: Point)
    requires ItemPlatform(plat) && AttemptDraws(attempts) && UnitDraw(fallback)
    ensures pos.y == ItemY(plat)
    ensures ItemLow(plat) <= pos.x <= ItemHigh(plat)
    ensures (exists k :: 0 <= k < MaxAttempts && ClearOfHazards(AttemptAt(plat, attempts, k), hs)) ==>
      && ClearOfHazards(pos, hs)
      && exists k :: 0 <= k < MaxAttempts && pos == AttemptAt(plat, attempts, k)
           && forall j :: 0 <= j < k ==> !ClearOfHazards(AttemptAt(plat, attempts, j), hs)
    ensures (forall k :: 0 <= k < MaxAttempts ==> !ClearOfHazards(AttemptAt(plat, attempts, k), hs)) ==>
      pos == Point(ItemX(plat, fallback), ItemY(plat))
  {
    var posX, posY := 0.0, 0.0;
    var positionIsSafe := false;
    var attempt := 0;
    while attempt < MaxAttempts
      invariant 0 <= attempt <= MaxAttempts
      invariant !positionIsSafe
      invariant forall j :: 0 <= j < attempt ==> !ClearOfHazards(AttemptAt(plat, attempts, j), hs)
    {
      posX := ItemX(plat, attempts[attempt]);
      posY := PlatformTop(plat) - 8.0;
      positionIsSafe := FarFromHazards(Point(posX, posY), hs);
      if positionIsSafe {
        assert Point(posX, posY) == AttemptAt(plat, attempts, attempt);
        break;
      }
      attempt := attempt + 1;
    }
    if !positionIsSafe {
      posX := ItemX(plat, fallback);
      posY := PlatformTop(plat) - 8.0;
    }
    pos := Point(posX, posY);
  }

  // ----------------------------------------------- relocation after a hit

  /** Positions of every hazard except the one at `self`, in list order. */
  function OtherCentres(hs: seq<Hazard>, self: nat): (cs: seq<Point>)
    requires self < |hs|
  {
    seq(|hs| - 1, k requires 0 <= k < |hs| - 1 => Position(hs[if k < self then k else k + 1]))
  }

  /** The occupied zones: a 15-box per recyclable, then a 20-box per other hazard. */
  function RelocationZones(recs: seq<Point>, hs: seq<Hazard>, self: nat): seq<Box>
    requires self < |hs|
  {
    Boxes(recs, RecyclableMargin) + Boxes(OtherCentres(hs, self), HazardMargin)
  }

  predicate RelocationOk(p: Point, zones: seq<Box>, origin: Point) {
    !StrictlyInside(p, SafeZone) && !InAny(p, zones) && p != origin
  }

  /** What a relocation target avoids, stated entity by entity. */
  predicate RelocationClear(p: Point, recs: seq<Point>, hs: seq<Hazard>, self: nat)
    requires self < |hs|
  {
    && !StrictlyInside(p, SafeZone)
    && (forall k :: 0 <= k < |recs| ==> !StrictlyInside(p, Around(recs[k], RecyclableMargin)))
    && (forall j :: 0 <= j < |hs| && j != self ==> !StrictlyInside(p, Around(Position(hs[j]), HazardMargin)))
    && p != hs[self].origin
  }

  /** The zone list says exactly what the per-entity statement says. */
  lemma RelocationZonesMeaning(p: Point, recs: seq<Point>, hs: seq<Hazard>, self: nat)
    requires self < |hs|
    ensures RelocationOk(p, RelocationZones(recs, hs, self), hs[self].origin) <==> RelocationClear(p, recs, hs, self)
  {
    var zr := Boxes(recs, RecyclableMargin);
    var others := OtherCentres(hs, self);
    var zh := Boxes(others, HazardMargin);
    var zones := zr + zh;
    if InAny(p, zones) {
      var k :| 0 <= k < |zones| && StrictlyInside(p, zones[k]);
      if k >= |zr| {
        var m := k - |zr|;
        assert zones[k] == zh[m];
        var j := if m < self then m else m + 1;
        assert zh[m] == Around(Position(hs[j]), HazardMargin);
        assert j != self && StrictlyInside(p, Around(Position(hs[j]), HazardMargin));
      } else {
        assert zones[k] == zr[k];
      }
    }
    forall j | 0 <= j < |hs| && j != self && StrictlyInside(p, Around(Position(hs[j]), HazardMargin))
      ensures InAny(p, zones)
    {
      var m := if j < self then j else j - 1;
      assert others[m] == Position(hs[j]);
      assert zones[|zr| + m] == zh[m];
    }
    forall k | 0 <= k < |recs| && StrictlyInside(p, Around(recs[k], RecyclableMargin))
      ensures InAny(p, zones)
    {
      assert zones[k] == zr[k];
    }
  }

  /** The pool positions a hazard may move to, in pool order. */
  function RelocationSpots(pool: seq<Point>, zones: seq<Box>, origin: Point): (r: seq<Point>)
    ensures |r| <= |pool|
    ensures forall p :: p in r <==> p in pool && RelocationOk(p, zones, origin)
    decreases |pool|
  {
    if pool == [] then []
    else
      var last := pool[|pool| - 1];
      assert pool == pool[..|pool| - 1] + [last];
      var init := RelocationSpots(pool[..|pool| - 1], zones, origin);
      if RelocationOk(last, zones, origin) then init + [last] else init
  }

  function RelocationTargets(recs: seq<Point>, hs: seq<Hazard>, self: nat): seq<Point>
    requires self < |hs|
  {
    RelocationSpots(Pool, RelocationZones(recs, hs, self), hs[self].origin)
  }

  /** The two loops that collect the occupied zones. */
  method OccupiedZones(recs: seq<Point>, hs: seq<Hazard>, self: nat) returns (zones: seq<Box>)
    requires self < |hs|
    ensures zones == RelocationZones(recs, hs, self)
  {
    zones := ZonesAround(recs, RecyclableMargin);
    ghost var zr := zones;
    ghost var others := OtherCentres(hs, self);
    var i := 0;
    while i < |hs|
      invariant 0 <= i <= |hs|
      invariant zones == zr + Boxes(others[..if i <= self then i else i - 1], HazardMargin)
    {
      if i != self {
        var m := if i < self then i else i - 1;
        assert others[m] == Position(hs[i]);
        assert others[..m + 1] == others[..m] + [others[m]];
        zones := zones + [Around(Position(hs[i]), HazardMargin)];
      }
      i := i + 1;
    }
    assert others[..|hs| - 1] == others;
  }

  /** The filter loop of the relocation search. */
  method FilterRelocationSpots(zones: seq<Box>, origin: Point) returns (valid: seq<Point>)
    ensures valid == RelocationSpots(Pool, zones, origin)
  {
    valid := [];
    var i := 0;
    while i < |Pool|
      invariant 0 <= i <= |Pool|
      invariant valid == RelocationSpots(Pool[..i], zones, origin)
    {
      var pos := Pool[i];
      var isValid := true;
      if pos.x > SafeZone.left && pos.x < SafeZone.right && pos.y > SafeZone.top && pos.y < SafeZone.bottom {
        isValid := false;
      }
      if isValid {
        var hit := HitsAnyZone(pos, zones);
        if hit {
          isValid := false;
        }
      }
      if isValid && pos.x == origin.x && pos.y == origin.y {
        isValid := false;
      }
      if isValid {
        valid := valid + [pos];
      }
      assert Pool[..i + 1][..i] == Pool[..i];
      i := i + 1;
    }
    assert Pool[..|Pool|] == Pool;
  }

  /**
   * The relocation search: the new position for hazard `self`, drawn by
   * `pick` among the pool positions that avoid the safe zone, every
   * recyclable's 15-box, every other hazard's 20-box and the hazard's
   * original position; `None` when there is no such position.
   */
  method FindNewHazardPosition(hs: seq<Hazard>, self: nat, recs: seq<Point>, pick: nat) returns (r: Option<Point>)
    requires self < |hs|
    requires |RelocationTargets(recs, hs, self)| > 0 ==> pick < |RelocationTargets(recs, hs, self)|
    ensures r.None? <==> forall p :: p in Pool ==> !RelocationClear(p, recs, hs, self)
    ensures r.Some? ==> r.value in Pool && RelocationClear(r.value, recs, hs, self)
    ensures r.Some? ==> r.value == RelocationTargets(recs, hs, self)[pick]
  {
    var zones := OccupiedZones(recs, hs, self);
    var validPositions := FilterRelocationSpots(zones, hs[self].origin);
    if |validPositions| > 0 {
      r := Some(validPositions[pick]);
      RelocationZonesMeaning(r.value, recs, hs, self);
    } else {
      r := None;
      forall p | p in Pool ensures !RelocationClear(p, recs, hs, self) {
        RelocationZonesMeaning(p, recs, hs, self);
      }
    }
  }

  /**
   * Relocation excludes the hazard's original position, not the one it
   * occupies: a hazard that has already moved once may be "relocated" onto
   * the spot it is standing on.
   */
  lemma RelocationMayKeepCurrentSpot()
    ensures var h := Hazard(135.0, 115.0, 0.0, true, Point(25.0, 115.0), None);
      Position(h) in Pool && RelocationClear(Position(h), [], [h], 0)
  {
  }
}
