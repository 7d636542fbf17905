/**
 * The tile renderer: each feature becomes at most one shape, chosen by the
 * first of thirteen rules that applies, queued by drawing layer while a
 * bounding box grows around everything queued; the queue is then drained
 * lowest layer first, each shape moved into canvas pixels as it is drawn.
 */
module TileRenderer {
  import opened Wrappers
  import Tags
  import opened MemoryMapped
  import opened Shapes

  /** The branches of `Tessellate`'s `switch (true)`. */
  datatype Rule =
    | NaturalRule | RailwayRule | RoadRule | WaterRule | BorderRule | PlaceRule | BuildingRule
    | ForestRule | PublicAmenityRule | PrivateAmenityRule
    | LanduseForestOrOrchardRule | LandusePlainRule | LanduseResidentialRule

  /** The branches in the order they are tried. */
  const Rules: seq<Rule> := [
    NaturalRule, RailwayRule, RoadRule, WaterRule, BorderRule, PlaceRule, BuildingRule,
    ForestRule, PublicAmenityRule, PrivateAmenityRule,
    LanduseForestOrOrchardRule, LandusePlainRule, LanduseResidentialRule
  ]

  /** The predicate a branch tests. */
  predicate Holds(rule: Rule, feature: MapFeatureData) {
    match rule
    case NaturalRule => IsNatural(feature)
    case RailwayRule => IsRailway(feature)
    case RoadRule => IsRoad(feature)
    case WaterRule => IsWaterway(feature)
    case BorderRule => IsBorder(feature)
    case PlaceRule => IsPopulatedPlace(feature)
    case BuildingRule => IsBuilding(feature)
    case ForestRule => IsForest(feature)
    case PublicAmenityRule => IsPublicAmenity(feature)
    case PrivateAmenityRule => IsPrivateAmenity(feature)
    case LanduseForestOrOrchardRule => IsLanduseForestOrOrchard(feature)
    case LandusePlainRule => IsLandusePlain(feature)
    case LanduseResidentialRule => IsLanduseResidential(feature)
  }

  /** The index of the first branch from `i` on whose predicate holds. */
  function FirstHolding(feature: MapFeatureData, i: nat): (r: Option<nat>)
    requires i <= |Rules|
    ensures r.Some? ==>
      && i <= r.value < |Rules| && Holds(Rules[r.value], feature)
      && forall j :: i <= j < r.value ==> !Holds(Rules[j], feature)
    ensures r.None? ==> forall j :: i <= j < |Rules| ==> !Holds(Rules[j], feature)
    decreases |Rules| - i
  {
    if i == |Rules| then None
    else if Holds(Rules[i], feature) then Some(i)
    else FirstHolding(feature, i + 1)
  }

  /** The branch `Tessellate` takes: the first whose predicate holds, if any does. */
  function SelectRule(feature: MapFeatureData): Option<Rule> {
    match FirstHolding(feature, 0)
    case None => None
    case Some(i) => Some(Rules[i])
  }

  /**
   * First true wins: the selected branch's predicate holds and no earlier
   * one's does, and no branch is selected only when no predicate holds.
   */
  lemma SelectRuleIsFirstTrue(feature: MapFeatureData)
    ensures SelectRule(feature).None? <==> forall j :: 0 <= j < |Rules| ==> !Holds(Rules[j], feature)
    ensures SelectRule(feature).Some? ==>
      exists i :: 0 <= i < |Rules| && Rules[i] == SelectRule(feature).value
        && Holds(Rules[i], feature) && forall j :: 0 <= j < i ==> !Holds(Rules[j], feature)
  {
    var r := FirstHolding(feature, 0);
    if r.Some? {
      assert Rules[r.value] == SelectRule(feature).value;
    }
  }

  /**
   * Because the predicates overlap, the order decides: a polygon with a
   * natural class is terrain whatever else it carries, and a line that is
   * both a road and a national border is drawn as a road.
   */
  lemma OrderDecides(feature: MapFeatureData)
    ensures IsNatural(feature) ==> SelectRule(feature) == Some(NaturalRule)
    ensures !IsNatural(feature) && IsRoad(feature) ==> SelectRule(feature) == Some(RoadRule)
    ensures !IsNatural(feature) && !IsRoad(feature) && IsBorder(feature) ==> SelectRule(feature) == Some(BorderRule)
  {
    UnfilledFieldsNeverMatch(feature);
    assert Rules[0] == NaturalRule && Rules[1] == RailwayRule && Rules[2] == RoadRule;
    assert Rules[3] == WaterRule && Rules[4] == BorderRule;
    if !IsNatural(feature) {
      assert FirstHolding(feature, 0) == FirstHolding(feature, 1) == FirstHolding(feature, 2);
      if !IsRoad(feature) {
        assert FirstHolding(feature, 2) == FirstHolding(feature, 3) == FirstHolding(feature, 4);
      }
    }
  }

  /** A water polygon becomes a filled water area on layer 40, whatever other tags it has. */
  lemma WaterAreaScenario(feature: MapFeatureData)
    requires feature.geometryType == Polygon && feature.Properties().natural == Tags.Natural.WATER
    ensures SelectRule(feature) == Some(NaturalRule)
    ensures RuleShape(NaturalRule, feature) == (GeoFeature(Water), true)
    ensures ZIndex(GeoFeature(Water)) == 40
  {
    OrderDecides(feature);
  }

  /**
   * The branches that test a field the classifier never fills (railway,
   * water, building and both amenities) are never taken.
   */
  lemma DeadBranches(feature: MapFeatureData)
    ensures SelectRule(feature) !in
      {Some(RailwayRule), Some(WaterRule), Some(BuildingRule), Some(PublicAmenityRule), Some(PrivateAmenityRule)}
  {
    UnfilledFieldsNeverMatch(feature);
    var r := FirstHolding(feature, 0);
    if r.Some? {
      assert Holds(Rules[r.value], feature);
    }
  }

  /** The kind and polygon flag of the shape each branch constructs. */
  function RuleShape(rule: Rule, feature: MapFeatureData): (ShapeKind, bool) {
    match rule
    case NaturalRule => (GeoFeature(NaturalToTerrain(feature.Properties().natural)), feature.geometryType == Polygon)
    case RailwayRule => (Railway, false)
    case RoadRule => (Road, false)
    case WaterRule => (Waterway, feature.geometryType == Polygon)
    case BorderRule => (Border, false)
    case PlaceRule => (PopulatedPlace(PlaceLabel(feature.labelText, feature.Properties().name)), false)
    case BuildingRule => (GeoFeature(Residential), true)
    case ForestRule => (GeoFeature(Forest), true)
    case PublicAmenityRule => (GeoFeature(Unknown), true)
    case PrivateAmenityRule => (GeoFeature(Unknown), true)
    case LanduseForestOrOrchardRule => (GeoFeature(Forest), true)
    case LandusePlainRule => (GeoFeature(Plain), true)
    case LanduseResidentialRule => (GeoFeature(Residential), true)
  }

  /** The `BoundingBox` struct, over reals. */
  datatype BoundingBox = BoundingBox(minX: real, maxX: real, minY: real, maxY: real)

  function Min(a: real, b: real): real { if a <= b then a else b }
  function Max(a: real, b: real): real { if a >= b then a else b }

  /** One pass of the bounding-box loop. */
  function Include(box: BoundingBox, p: PointF): BoundingBox {
    BoundingBox(Min(box.minX, p.x), Max(box.maxX, p.x), Min(box.minY, p.y), Max(box.maxY, p.y))
  }

  /** The box after the loop has seen `ps`, in order. */
  function Widen(box: BoundingBox, ps: seq<PointF>): BoundingBox
    decreases |ps|
  {
    if ps == [] then box else Include(Widen(box, ps[..|ps| - 1]), ps[|ps| - 1])
  }

  /**
   * The widened box contains the old box and every point, and it is the
   * least such box: each bound is the old bound or some point's coordinate.
   */
  lemma {:induction false} WidenEncloses(box: BoundingBox, ps: seq<PointF>)
    ensures var r := Widen(box, ps);
      && r.minX <= box.minX && box.maxX <= r.maxX && r.minY <= box.minY && box.maxY <= r.maxY
      && (forall i :: 0 <= i < |ps| ==> r.minX <= ps[i].x <= r.maxX && r.minY <= ps[i].y <= r.maxY)
    ensures var r := Widen(box, ps);
      && (r.minX == box.minX || exists i :: 0 <= i < |ps| && r.minX == ps[i].x)
      && (r.maxX == box.maxX || exists i :: 0 <= i < |ps| && r.maxX == ps[i].x)
      && (r.minY == box.minY || exists i :: 0 <= i < |ps| && r.minY == ps[i].y)
      && (r.maxY == box.maxY || exists i :: 0 <= i < |ps| && r.maxY == ps[i].y)
    decreases |ps|
  {
    if ps != [] {
      var n := |ps| - 1;
      WidenEncloses(box, ps[..n]);
      var r0 := Widen(box, ps[..n]);
      forall i | 0 <= i < n
        ensures ps[..n][i] == ps[i]
      {
      }
      if r0.minX != box.minX && Widen(box, ps).minX == r0.minX {
        var i :| 0 <= i < n && r0.minX == ps[..n][i].x;
      }
      if r0.maxX != box.maxX && Widen(box, ps).maxX == r0.maxX {
        var i :| 0 <= i < n && r0.maxX == ps[..n][i].x;
      }
      if r0.minY != box.minY && Widen(box, ps).minY == r0.minY {
        var i :| 0 <= i < n && r0.minY == ps[..n][i].y;
      }
      if r0.maxY != box.maxY && Widen(box, ps).maxY == r0.maxY {
        var i :| 0 <= i < n && r0.maxY == ps[..n][i].y;
      }
    }
  }

  /**
   * The .NET `PriorityQueue<BaseShape, int>` as a bag of (shape, priority)
   * entries. Which of several entries with the least priority comes out
   * first is not fixed.
   */
  class ShapeQueue {
    var items: seq<(Shape, int)>

    constructor()
      ensures items == []
    {
      items := [];
    }

    method Count() returns (n: nat)
      ensures n == |items|
    {
      n := |items|;
    }

    method Enqueue(shape: Shape, priority: int)
      modifies this
      ensures items == old(items) + [(shape, priority)]
    {
      items := items + [(shape, priority)];
    }

    /** Removes and returns an entry of least priority. */
    method Dequeue() returns (entry: (Shape, int))
      requires items != []
      modifies this
      ensures exists k :: 0 <= k < |old(items)| && entry == old(items)[k] && items == old(items)[..k] + old(items)[k + 1..]
      ensures forall i :: 0 <= i < |old(items)| ==> entry.1 <= old(items)[i].1
    {
      var k := 0;
      for i := 1 to |items|
        invariant 0 <= k < |items|
        invariant forall j :: 0 <= j < i ==> items[k].1 <= items[j].1
      {
        if items[i].1 < items[k].1 {
          k := i;
        }
      }
      entry := items[k];
      items := items[..k] + items[k + 1..];
    }
  }

  /**
   * `Tessellate`: builds the shape of the first branch that applies, queues it
   * under its layer, and widens the box around its screen coordinates; when
   * no branch applies nothing changes.
   */
  method Tessellate(feature: MapFeatureData, proj: Projection, box: BoundingBox, queue: ShapeQueue)
    returns (shape: Option<Shape>, newBox: BoundingBox)
    modifies queue
    ensures shape.None? <==> SelectRule(feature).None?
    ensures shape.None? ==> queue.items == old(queue.items) && newBox == box
    ensures shape.Some? ==>
      && (shape.value.kind, shape.value.isPolygon) == RuleShape(SelectRule(feature).value, feature)
      && fresh(shape.value.screenCoordinates) && shape.value.screenCoordinates !in Arrays(old(queue.items))
      && shape.value.screenCoordinates[..] == ProjectAll(proj, feature.coordinates)
      && queue.items == old(queue.items) + [(shape.value, ZIndex(shape.value.kind))]
      && newBox == Widen(box, shape.value.screenCoordinates[..])
  {
    var rule := SelectRule(feature);
    if rule.None? {
      return None, box;
    }
    var cs := feature.coordinates;
    var s: Shape;
    match rule.value {
      case NaturalRule => s := NewGeoFeature(cs, feature, proj);
      case RailwayRule => s := NewRailway(cs, proj);
      case RoadRule => s := NewRoad(cs, false, proj);
      case WaterRule => s := NewWaterway(cs, feature.geometryType == Polygon, proj);
      case BorderRule => s := NewBorder(cs, proj);
      case PlaceRule => s := NewPopulatedPlace(cs, feature, proj);
      case BuildingRule => s := NewGeoFeatureOfType(cs, Residential, proj);
      case ForestRule => s := NewGeoFeatureOfType(cs, Forest, proj);
      case PublicAmenityRule => s := NewGeoFeatureOfType(cs, Unknown, proj);
      case PrivateAmenityRule => s := NewGeoFeatureOfType(cs, Unknown, proj);
      case LanduseForestOrOrchardRule => s := NewGeoFeatureOfType(cs, Forest, proj);
      case LandusePlainRule => s := NewGeoFeatureOfType(cs, Plain, proj);
      case LanduseResidentialRule => s := NewGeoFeatureOfType(cs, Residential, proj);
    }
    assert s.screenCoordinates !in Arrays(queue.items);
    queue.Enqueue(s, ZIndex(s.kind));
    newBox := box;
    var screen := s.screenCoordinates;
    for j := 0 to screen.Length
      invariant newBox == Widen(box, screen[..j])
    {
      assert screen[..j + 1][..j] == screen[..j];
      newBox := Include(newBox, screen[j]);
    }
    assert screen[..screen.Length] == screen[..];
    shape := Some(s);
  }

  /** The coordinate arrays the entries hold. */
  function Arrays(items: seq<(Shape, int)>): set<array<PointF>> {
    set i | 0 <= i < |items| :: items[i].0.screenCoordinates
  }

  /** No two entries share a coordinate array. */
  predicate DistinctArrays(items: seq<(Shape, int)>) {
    forall i, j :: 0 <= i < j < |items| ==> items[i].0.screenCoordinates != items[j].0.screenCoordinates
  }

  /** Every entry is queued under its shape's layer. */
  predicate KeyedByLayer(items: seq<(Shape, int)>) {
    forall i :: 0 <= i < |items| ==> items[i].1 == ZIndex(items[i].0.kind)
  }

  /** Shapes built by `Tessellate` get new arrays, so queuing them keeps the arrays distinct and the keys right. */
  lemma TessellateKeepsQueueWellFormed(before: seq<(Shape, int)>, s: Shape)
    requires DistinctArrays(before) && KeyedByLayer(before)
    requires s.screenCoordinates !in Arrays(before)
    ensures DistinctArrays(before + [(s, ZIndex(s.kind))]) && KeyedByLayer(before + [(s, ZIndex(s.kind))])
  {
    var after := before + [(s, ZIndex(s.kind))];
    forall i, j | 0 <= i < j < |after|
      ensures after[i].0.screenCoordinates != after[j].0.screenCoordinates
    {
      if j == |before| {
        assert after[i].0.screenCoordinates in Arrays(before);
      }
    }
  }

  /** Removing the entry at `k` keeps the others' arrays distinct from each other and from its array. */
  lemma {:induction false} RemoveKeepsDistinct(items: seq<(Shape, int)>, k: nat)
    requires k < |items| && DistinctArrays(items)
    ensures DistinctArrays(items[..k] + items[k + 1..])
    ensures forall e :: e in items[..k] + items[k + 1..] ==> e.0.screenCoordinates != items[k].0.screenCoordinates
  {
    var rest := items[..k] + items[k + 1..];
    assert forall i :: 0 <= i < |rest| ==> rest[i] == items[if i < k then i else i + 1];
  }

  /** Entries in non-decreasing priority. */
  predicate Ascending(drawn: seq<(Shape, int)>) {
    forall i, j :: 0 <= i < j < |drawn| ==> drawn[i].1 <= drawn[j].1
  }

  /**
   * Part way through draining `orig`: the queue and the drawn entries split
   * the original entries and their arrays between them, and everything drawn
   * is in order and no later than anything still queued.
   */
  predicate DrainState(queued: seq<(Shape, int)>, drawn: seq<(Shape, int)>, orig: seq<(Shape, int)>) {
    && DistinctArrays(queued)
    && multiset(queued) + multiset(drawn) == multiset(orig)
    && Arrays(queued) !! Arrays(drawn)
    && Arrays(queued) + Arrays(drawn) == Arrays(orig)
    && Ascending(drawn)
    && forall i, j :: 0 <= i < |drawn| && 0 <= j < |queued| ==> drawn[i].1 <= queued[j].1
  }

  /** Before the first pass nothing is drawn. */
  lemma DrainStart(orig: seq<(Shape, int)>)
    requires DistinctArrays(orig)
    ensures DrainState(orig, [], orig)
  {
    assert Arrays([]) == {};
  }

  /** After the last pass everything was drawn, in order. */
  lemma DrainDone(drawn: seq<(Shape, int)>, orig: seq<(Shape, int)>)
    requires DrainState([], drawn, orig)
    ensures multiset(drawn) == multiset(orig) && Ascending(drawn) && Arrays(drawn) == Arrays(orig)
  {
    assert Arrays([]) == {};
  }

  /** The arrays of a queue with one more entry. */
  lemma ArraysAppend(items: seq<(Shape, int)>, e: (Shape, int))
    ensures Arrays(items + [e]) == Arrays(items) + {e.0.screenCoordinates}
  {
    var longer := items + [e];
    forall a | a in Arrays(longer)
      ensures a in Arrays(items) + {e.0.screenCoordinates}
    {
      var i :| 0 <= i < |longer| && a == longer[i].0.screenCoordinates;
      if i < |items| {
        assert a == items[i].0.screenCoordinates;
      }
    }
    forall a | a in Arrays(items)
      ensures a in Arrays(longer)
    {
      var i :| 0 <= i < |items| && a == items[i].0.screenCoordinates;
      assert a == longer[i].0.screenCoordinates;
    }
    assert e.0.screenCoordinates == longer[|items|].0.screenCoordinates;
  }

  /** The arrays of a queue with the entry at `k` removed. */
  lemma ArraysRemove(items: seq<(Shape, int)>, k: nat)
    requires k < |items|
    ensures Arrays(items) == Arrays(items[..k] + items[k + 1..]) + {items[k].0.screenCoordinates}
  {
    var rest := items[..k] + items[k + 1..];
    forall a | a in Arrays(items)
      ensures a in Arrays(rest) + {items[k].0.screenCoordinates}
    {
      var i :| 0 <= i < |items| && a == items[i].0.screenCoordinates;
      if i < k {
        assert a == rest[i].0.screenCoordinates;
      } else if i > k {
        assert a == rest[i - 1].0.screenCoordinates;
      }
    }
    forall a | a in Arrays(rest)
      ensures a in Arrays(items)
    {
      var i :| 0 <= i < |rest| && a == rest[i].0.screenCoordinates;
      assert a == items[if i < k then i else i + 1].0.screenCoordinates;
    }
  }

  /** Taking a least entry out of the queue and drawing it keeps the split. */
  lemma DrainStep(queued: seq<(Shape, int)>, drawn: seq<(Shape, int)>, orig: seq<(Shape, int)>, k: nat)
    requires DrainState(queued, drawn, orig)
    requires k < |queued| && forall j :: 0 <= j < |queued| ==> queued[k].1 <= queued[j].1
    ensures queued[k].0.screenCoordinates in Arrays(orig) && queued[k].0.screenCoordinates !in Arrays(drawn)
    ensures Arrays(drawn + [queued[k]]) == Arrays(drawn) + {queued[k].0.screenCoordinates}
    ensures DrainState(queued[..k] + queued[k + 1..], drawn + [queued[k]], orig)
  {
    var entry, rest, drawn' := queued[k], queued[..k] + queued[k + 1..], drawn + [queued[k]];
    RemoveKeepsDistinct(queued, k);
    ArraysRemove(queued, k);
    ArraysAppend(drawn, entry);
    assert queued == queued[..k] + [entry] + queued[k + 1..];
    assert multiset(queued) == multiset(rest) + multiset{entry};
    assert entry.0.screenCoordinates !in Arrays(rest);
    assert multiset(rest) + multiset(drawn') == multiset(orig);
    assert Arrays(rest) !! Arrays(drawn');
    assert Arrays(rest) + Arrays(drawn') == Arrays(orig);
    forall i, j | 0 <= i < |drawn'| && 0 <= j < |rest|
      ensures drawn'[i].1 <= rest[j].1
    {
      assert rest[j] == queued[if j < k then j else j + 1];
    }
  }

  /**
   * Each array the queue started with holds its original points, or those
   * points moved into canvas pixels once it has been drawn.
   */
  ghost predicate ArraysMatch(snapshot: map<array<PointF>, seq<PointF>>, done: set<array<PointF>>,
                              box: BoundingBox, scale: real, height: real)
    reads snapshot.Keys
  {
    forall a :: a in snapshot ==>
      a[..] == if a in done then TranslateAll(snapshot[a], box.minX, box.minY, scale, height) else snapshot[a]
  }

  /**
   * The state of `Render`'s loop: the queue and `drawn` split `orig`, and
   * every array `orig` holds is either untouched or moved into canvas pixels
   * according to whether its entry has been drawn.
   */
  ghost predicate Progress(queue: ShapeQueue, drawn: seq<(Shape, int)>, orig: seq<(Shape, int)>,
                           snapshot: map<array<PointF>, seq<PointF>>, box: BoundingBox, scale: real, height: real)
    reads queue, snapshot.Keys
  {
    && DrainState(queue.items, drawn, orig)
    && snapshot.Keys == Arrays(orig)
    && ArraysMatch(snapshot, Arrays(drawn), box, scale, height)
  }

  /** One pass of `Render`'s loop: take a least entry out, move its shape into canvas pixels, draw it. */
  method DrawNext(queue: ShapeQueue, box: BoundingBox, scale: real, height: real,
                  ghost orig: seq<(Shape, int)>, ghost snapshot: map<array<PointF>, seq<PointF>>,
                  ghost drawn: seq<(Shape, int)>)
    returns (entry: (Shape, int))
    requires queue.items != [] && Progress(queue, drawn, orig, snapshot, box, scale, height)
    modifies queue, snapshot.Keys
    ensures Progress(queue, drawn + [entry], orig, snapshot, box, scale, height)
  {
    ghost var before := queue.items;
    entry := queue.Dequeue();
    ghost var k :| 0 <= k < |before| && entry == before[k] && queue.items == before[..k] + before[k + 1..];
    DrainStep(before, drawn, orig, k);
    label Drawing:
    TranslateAndScale(entry.0, box.minX, box.minY, scale, height);
    forall a | a in snapshot
      ensures a[..] == if a in Arrays(drawn + [entry]) then TranslateAll(snapshot[a], box.minX, box.minY, scale, height)
                       else snapshot[a]
    {
      assert old@Drawing(a[..]) == if a in Arrays(drawn) then TranslateAll(snapshot[a], box.minX, box.minY, scale, height)
                                   else snapshot[a];
      if a != entry.0.screenCoordinates {
        assert a[..] == old@Drawing(a[..]);
      }
    }
  }

  /** When the queue is empty, every array `orig` holds has been moved into canvas pixels once. */
  lemma DrainComplete(drawn: seq<(Shape, int)>, orig: seq<(Shape, int)>,
                      snapshot: map<array<PointF>, seq<PointF>>, box: BoundingBox, scale: real, height: real)
    requires DrainState([], drawn, orig) && snapshot.Keys == Arrays(orig)
    requires ArraysMatch(snapshot, Arrays(drawn), box, scale, height)
    ensures multiset(drawn) == multiset(orig) && Ascending(drawn)
    ensures forall i :: 0 <= i < |orig| ==>
      && orig[i].0.screenCoordinates in snapshot
      && orig[i].0.screenCoordinates[..] == TranslateAll(snapshot[orig[i].0.screenCoordinates], box.minX, box.minY, scale, height)
  {
    DrainDone(drawn, orig);
    forall i | 0 <= i < |orig|
      ensures orig[i].0.screenCoordinates in snapshot
    {
    }
  }

  /**
   * `Render`'s drain loop: every queued entry is taken out exactly once, in
   * non-decreasing priority, and its shape's coordinates are moved into
   * canvas pixels once; `drawn` lists the entries in the order they are drawn.
   */
  method Render(queue: ShapeQueue, box: BoundingBox, scale: real, height: real) returns (drawn: seq<(Shape, int)>)
    requires DistinctArrays(queue.items)
    modifies queue, Arrays(queue.items)
    ensures queue.items == []
    ensures multiset(drawn) == multiset(old(queue.items))
    ensures Ascending(drawn)
    ensures forall i :: 0 <= i < |old(queue.items)| ==>
      old(queue.items)[i].0.screenCoordinates[..]
        == TranslateAll(old(queue.items[i].0.screenCoordinates[..]), box.minX, box.minY, scale, height)
  {
    ghost var orig := queue.items;
    ghost var snapshot := map a | a in Arrays(orig) :: a[..];
    assert snapshot.Keys == Arrays(orig);
    assert forall i :: 0 <= i < |orig| ==> snapshot[orig[i].0.screenCoordinates] == orig[i].0.screenCoordinates[..];
    DrainStart(orig);
    drawn := [];
    var count := queue.Count();
    while count > 0
      invariant count == |queue.items|
      invariant Progress(queue, drawn, orig, snapshot, box, scale, height)
      decreases count
    {
      var entry := DrawNext(queue, box, scale, height, orig, snapshot, drawn);
      drawn := drawn + [entry];
      count := queue.Count();
    }
    DrainComplete(drawn, orig, snapshot, box, scale, height);
  }

  /** Drawing a queue filled by `Tessellate` goes through the layers bottom up. */
  lemma DrawnInLayerOrder(queued: seq<(Shape, int)>, drawn: seq<(Shape, int)>)
    requires KeyedByLayer(queued)
    requires multiset(drawn) == multiset(queued)
    requires forall i, j :: 0 <= i < j < |drawn| ==> drawn[i].1 <= drawn[j].1
    ensures forall i, j :: 0 <= i < j < |drawn| ==> ZIndex(drawn[i].0.kind) <= ZIndex(drawn[j].0.kind)
  {
    forall i | 0 <= i < |drawn|
      ensures drawn[i].1 == ZIndex(drawn[i].0.kind)
    {
      assert drawn[i] in multiset(queued);
    }
  }
}
