/**
 * The renderable shapes: which shape a classified feature becomes, where its
 * vertices land on the screen plane, the layer (`ZIndex`) it is drawn on, and
 * the in-place rewrite of its screen coordinates into canvas pixels.
 */
module Shapes {
  import opened Wrappers
  import Tags
  import opened MemoryMapped

  datatype GeoFeatureType = Plain | Hills | Mountains | Forest | Desert | Unknown | Water | Residential

  /** A screen point; the model's `real` stands for the source's `float`. */
  datatype PointF = PointF(x: real, y: real)

  /** The Mercator projection, one function per axis. */
  datatype Projection = Projection(lonToX: real -> real, latToY: real -> real)

  /** What distinguishes the six shape structs. */
  datatype ShapeKind =
    | GeoFeature(geoType: GeoFeatureType)
    | Railway
    | PopulatedPlace(place: PlaceName)
    | Border
    | Waterway
    | Road

  /**
   * A shape struct. Its `ScreenCoordinates` array is a reference: copies of the
   * struct (the boxed one in the queue, the one returned) share the array.
   */
  datatype Shape = Shape(kind: ShapeKind, isPolygon: bool, screenCoordinates: array<PointF>)

  /**
   * The drawing layer. A GeoFeature's layer follows its type (the getter's
   * fallback 7 cannot be reached and its setter does nothing); the other
   * shapes keep their initial value, which nothing reassigns.
   */
  function ZIndex(kind: ShapeKind): int {
    match kind
    case GeoFeature(t) =>
      (match t
       case Plain => 10
       case Hills => 12
       case Mountains => 13
       case Forest => 11
       case Desert => 9
       case Unknown => 8
       case Water => 40
       case Residential => 41)
    case Railway => 45
    case PopulatedPlace(_) => 60
    case Border => 30
    case Waterway => 40
    case Road => 50
  }

  /**
   * The layers from the bottom up: terrain, borders, water (a water area and a
   * waterway share a layer), residential areas, railways, roads, place names.
   */
  lemma DrawingLayers(t: GeoFeatureType, place: PlaceName)
    ensures ZIndex(GeoFeature(t)) != 7
    ensures t != Water && t != Residential ==> 8 <= ZIndex(GeoFeature(t)) < ZIndex(Border)
    ensures ZIndex(Border) < ZIndex(Waterway) == ZIndex(GeoFeature(Water))
    ensures ZIndex(Waterway) < ZIndex(GeoFeature(Residential)) < ZIndex(Railway)
    ensures ZIndex(Railway) < ZIndex(Road) < ZIndex(PopulatedPlace(place))
  {
  }

  /** The terrain a `natural` class is drawn as (the switch of the GeoFeature constructor). */
  function NaturalToTerrain(natural: Tags.Natural): (t: GeoFeatureType)
    ensures t == Water <==> natural == Tags.Natural.WATER
    ensures t == Desert <==> natural in {Tags.Natural.BEACH, Tags.Natural.SAND}
    ensures t == Forest <==>
      natural in {Tags.Natural.WOOD, Tags.Natural.TREE_ROW, Tags.Natural.BARE_ROCK, Tags.Natural.ROCK, Tags.Natural.SCREE}
    ensures t == Plain <==>
      natural in {Tags.Natural.FELL, Tags.Natural.GRASSLAND, Tags.Natural.HEATH,
                  Tags.Natural.MOOR, Tags.Natural.SCRUB, Tags.Natural.WETLAND}
    ensures t != Mountains && t != Hills && t != Residential
  {
    if natural == Tags.Natural.NULL then Unknown
    else
      var water := natural == Tags.Natural.WATER;
      var desert := natural == Tags.Natural.BEACH || natural == Tags.Natural.SAND;
      var forest := natural == Tags.Natural.WOOD || natural == Tags.Natural.TREE_ROW;
      var mountains := natural == Tags.Natural.BARE_ROCK || natural == Tags.Natural.ROCK || natural == Tags.Natural.SCREE;
      var plain :=
        natural == Tags.Natural.FELL || natural == Tags.Natural.GRASSLAND || natural == Tags.Natural.HEATH
        || natural == Tags.Natural.MOOR || natural == Tags.Natural.SCRUB || natural == Tags.Natural.WETLAND;
      if plain then Plain
      else if forest then Forest
      else if mountains then Forest
      else if desert then Desert
      else if water then Water
      else Unknown
  }

  // The per-shape predicates over a feature and its classified tags.

  predicate IsNatural(feature: MapFeatureData) {
    feature.geometryType == Polygon && feature.Properties().natural != Tags.Natural.NULL
  }

  predicate IsForest(feature: MapFeatureData) {
    feature.Properties().boundary == Tags.Boundary.FOREST
  }

  predicate IsLanduseForestOrOrchard(feature: MapFeatureData) {
    feature.Properties().landUse in {Tags.LandUse.FOREST, Tags.LandUse.ORCHARD}
  }

  predicate IsBuilding(feature: MapFeatureData) {
    feature.geometryType == Polygon && feature.Properties().building != Tags.Building.NULL
  }

  predicate IsPublicAmenity(feature: MapFeatureData) {
    feature.geometryType == Polygon && feature.Properties().publicAmenity != Tags.PublicAmenity.NULL
  }

  predicate IsPrivateAmenity(feature: MapFeatureData) {
    feature.geometryType == Polygon && feature.Properties().privateAmenity != Tags.PrivateAmenity.NULL
  }

  predicate IsLanduseResidential(feature: MapFeatureData) {
    feature.Properties().landUse in {
      Tags.LandUse.RESIDENTIAL, Tags.LandUse.CEMETERY, Tags.LandUse.INDUSTRIAL,
      Tags.LandUse.COMMERCIAL, Tags.LandUse.SQUARE, Tags.LandUse.CONSTRUCTION,
      Tags.LandUse.MILITARY, Tags.LandUse.QUARRY, Tags.LandUse.BROWNFIELD}
  }

  predicate IsLandusePlain(feature: MapFeatureData) {
    feature.Properties().landUse in {
      Tags.LandUse.FARM, Tags.LandUse.MEADOW, Tags.LandUse.GRASS, Tags.LandUse.GREENFIELD,
      Tags.LandUse.RECREATION_GROUND, Tags.LandUse.WINTER_SPORTS, Tags.LandUse.ALLOTMENTS}
  }

  predicate IsRailway(feature: MapFeatureData) {
    feature.Properties().railway != Tags.Railway.NULL
  }

  predicate IsPopulatedPlace(feature: MapFeatureData) {
    feature.geometryType == Point
    && feature.Properties().place in {Tags.Place.CITY, Tags.Place.TOWN, Tags.Place.LOCALITY, Tags.Place.HAMLET}
  }

  predicate IsBorder(feature: MapFeatureData) {
    feature.Properties().boundary == Tags.Boundary.ADMINISTRATIVE
    && feature.Properties().adminLevel == Tags.AdminLevel.LEVEL2
  }

  predicate IsWaterway(feature: MapFeatureData) {
    feature.Properties().water != Tags.Water.NULL && feature.geometryType != Point
  }

  predicate IsRoad(feature: MapFeatureData) {
    feature.Properties().highway != Tags.Highway.NULL && feature.geometryType != Point
  }

  /** What each predicate demands of the geometry and of the tags besides its own field. */
  lemma PredicateGuards(feature: MapFeatureData)
    ensures IsPopulatedPlace(feature) ==> feature.geometryType == Point
    ensures IsRoad(feature) || IsWaterway(feature) ==> feature.geometryType != Point
    ensures IsNatural(feature) || IsBuilding(feature) || IsPublicAmenity(feature) || IsPrivateAmenity(feature)
      ==> feature.geometryType == Polygon
    ensures IsBorder(feature) ==> !IsForest(feature)
    ensures IsPopulatedPlace(feature) ==> !IsRoad(feature) && !IsWaterway(feature)
  {
  }

  /** The three land-use groups share no value, so at most one of their predicates holds. */
  lemma LandUseGroupsDisjoint(feature: MapFeatureData)
    ensures !(IsLanduseForestOrOrchard(feature) && IsLandusePlain(feature))
    ensures !(IsLanduseForestOrOrchard(feature) && IsLanduseResidential(feature))
    ensures !(IsLandusePlain(feature) && IsLanduseResidential(feature))
  {
  }

  /**
   * The classifier never fills water, railway, building or the amenities, so
   * the predicates that test them are false for every feature the data file
   * produces.
   */
  lemma UnfilledFieldsNeverMatch(feature: MapFeatureData)
    ensures !IsRailway(feature) && !IsWaterway(feature) && !IsBuilding(feature)
    ensures !IsPublicAmenity(feature) && !IsPrivateAmenity(feature)
  {
    Tags.ClassifyLastWins(feature.dictionary);
  }

  /** `char.IsWhiteSpace`: the Unicode separators and the control characters U+0009 to U+000D and U+0085. */
  predicate IsWhiteSpace(ch: char) {
    ch == ' ' || '\t' <= ch <= '\r' || ch == '\U{85}' || ch == '\U{A0}' || ch == '\U{1680}'
    || '\U{2000}' <= ch <= '\U{200A}' || ch == '\U{2028}' || ch == '\U{2029}' || ch == '\U{202F}'
    || ch == '\U{205F}' || ch == '\U{3000}'
  }

  /** `string.IsNullOrWhiteSpace`. */
  predicate IsNullOrWhiteSpace(s: Option<string>) {
    s.None? || forall i :: 0 <= i < |s.value| ==> IsWhiteSpace(s.value[i])
  }

  /** What a populated place shows, and whether it is drawn at all. */
  datatype PlaceName = PlaceName(shown: string, shouldRender: bool)

  /**
   * The name a populated place shows, and whether it is drawn: only a place
   * with a label is drawn, under its name tag when that has visible text and
   * under its label otherwise. The shown name is never empty.
   */
  function PlaceLabel(labelText: string, name: Option<string>): (r: PlaceName)
    ensures r.shouldRender <==> labelText != []
    ensures !r.shouldRender ==> r.shown == "Unknown"
    ensures r.shouldRender ==> r.shown == (if IsNullOrWhiteSpace(name) then labelText else name.value)
    ensures r.shown != []
  {
    if labelText == [] then PlaceName("Unknown", false)
    else PlaceName(if IsNullOrWhiteSpace(name) then labelText else name.value, true)
  }

  /**
   * The classifier never sets `name`, so a place read from the data file is
   * shown under its label whenever it has one.
   */
  lemma PlaceIsShownUnderLabel(feature: MapFeatureData)
    ensures PlaceLabel(feature.labelText, feature.Properties().name)
      == if feature.labelText == [] then PlaceName("Unknown", false) else PlaceName(feature.labelText, true)
  {
    Tags.ClassifyLastWins(feature.dictionary);
  }

  /** One vertex on the screen plane. */
  function Project(proj: Projection, c: Coordinate): PointF {
    PointF(proj.lonToX(c.longitude), proj.latToY(c.latitude))
  }

  /** The screen coordinates of a vertex list: one point per vertex, in order. */
  function ProjectAll(proj: Projection, cs: seq<Coordinate>): (r: seq<PointF>)
    ensures |r| == |cs|
    ensures forall i :: 0 <= i < |cs| ==> r[i] == Project(proj, cs[i])
    decreases |cs|
  {
    if cs == [] then [] else ProjectAll(proj, cs[..|cs| - 1]) + [Project(proj, cs[|cs| - 1])]
  }

  /** The loop every shape constructor runs: a new array of projected vertices. */
  method ProjectCoordinates(cs: seq<Coordinate>, proj: Projection) returns (screen: array<PointF>)
    ensures fresh(screen)
    ensures screen[..] == ProjectAll(proj, cs)
  {
    screen := new PointF[|cs|];
    for i := 0 to |cs|
      invariant forall k :: 0 <= k < i ==> screen[k] == Project(proj, cs[k])
    {
      screen[i] := Project(proj, cs[i]);
    }
  }

  /** `new GeoFeature(c, type)`: a filled area of the given terrain. */
  method NewGeoFeatureOfType(cs: seq<Coordinate>, geoType: GeoFeatureType, proj: Projection) returns (s: Shape)
    ensures s.kind == GeoFeature(geoType) && s.isPolygon
    ensures fresh(s.screenCoordinates) && s.screenCoordinates[..] == ProjectAll(proj, cs)
  {
    var screen := ProjectCoordinates(cs, proj);
    s := Shape(GeoFeature(geoType), true, screen);
  }

  /** `new GeoFeature(c, feature)`: terrain from the natural class, filled only for a polygon. */
  method NewGeoFeature(cs: seq<Coordinate>, feature: MapFeatureData, proj: Projection) returns (s: Shape)
    ensures s.kind == GeoFeature(NaturalToTerrain(feature.Properties().natural))
    ensures s.isPolygon <==> feature.geometryType == Polygon
    ensures fresh(s.screenCoordinates) && s.screenCoordinates[..] == ProjectAll(proj, cs)
  {
    var terrain := NaturalToTerrain(feature.Properties().natural);
    var screen := ProjectCoordinates(cs, proj);
    s := Shape(GeoFeature(terrain), feature.geometryType == Polygon, screen);
  }

  /** `new Railway(c)`: always a line. */
  method NewRailway(cs: seq<Coordinate>, proj: Projection) returns (s: Shape)
    ensures s.kind == Railway && !s.isPolygon
    ensures fresh(s.screenCoordinates) && s.screenCoordinates[..] == ProjectAll(proj, cs)
  {
    var screen := ProjectCoordinates(cs, proj);
    s := Shape(Railway, false, screen);
  }

  /** `new PopulatedPlace(c, feature)`: a label, never a polygon. */
  method NewPopulatedPlace(cs: seq<Coordinate>, feature: MapFeatureData, proj: Projection) returns (s: Shape)
    ensures s.kind == PopulatedPlace(PlaceLabel(feature.labelText, feature.Properties().name))
    ensures !s.isPolygon
    ensures fresh(s.screenCoordinates) && s.screenCoordinates[..] == ProjectAll(proj, cs)
  {
    var screen := ProjectCoordinates(cs, proj);
    var name := feature.Properties().name;
    s := Shape(PopulatedPlace(PlaceLabel(feature.labelText, name)), false, screen);
  }

  /** `new Border(c)`: always a line. */
  method NewBorder(cs: seq<Coordinate>, proj: Projection) returns (s: Shape)
    ensures s.kind == Border && !s.isPolygon
    ensures fresh(s.screenCoordinates) && s.screenCoordinates[..] == ProjectAll(proj, cs)
  {
    var screen := ProjectCoordinates(cs, proj);
    s := Shape(Border, false, screen);
  }

  /** `new Waterway(c, isPolygon)`. */
  method NewWaterway(cs: seq<Coordinate>, isPolygon: bool, proj: Projection) returns (s: Shape)
    ensures s.kind == Waterway && s.isPolygon == isPolygon
    ensures fresh(s.screenCoordinates) && s.screenCoordinates[..] == ProjectAll(proj, cs)
  {
    var screen := ProjectCoordinates(cs, proj);
    s := Shape(Waterway, isPolygon, screen);
  }

  /** `new Road(c, isPolygon)`. */
  method NewRoad(cs: seq<Coordinate>, isPolygon: bool, proj: Projection) returns (s: Shape)
    ensures s.kind == Road && s.isPolygon == isPolygon
    ensures fresh(s.screenCoordinates) && s.screenCoordinates[..] == ProjectAll(proj, cs)
  {
    var screen := ProjectCoordinates(cs, proj);
    s := Shape(Road, isPolygon, screen);
  }

  /** A screen point moved into canvas pixels: shifted to the box corner, scaled, and flipped vertically. */
  function Translate(p: PointF, minX: real, minY: real, scale: real, height: real): PointF {
    PointF((p.x + minX * -1.0) * scale, height - (p.y + minY * -1.0) * scale)
  }

  /** Every point moved by `Translate`, in order. */
  function TranslateAll(ps: seq<PointF>, minX: real, minY: real, scale: real, height: real): (r: seq<PointF>)
    ensures |r| == |ps|
    ensures forall i :: 0 <= i < |ps| ==> r[i] == Translate(ps[i], minX, minY, scale, height)
    decreases |ps|
  {
    if ps == [] then []
    else TranslateAll(ps[..|ps| - 1], minX, minY, scale, height) + [Translate(ps[|ps| - 1], minX, minY, scale, height)]
  }

  /** `BaseShape.TranslateAndScale`: rewrites the shape's (shared) coordinate array in place. */
  method TranslateAndScale(shape: Shape, minX: real, minY: real, scale: real, height: real)
    modifies shape.screenCoordinates
    ensures shape.screenCoordinates[..] == TranslateAll(old(shape.screenCoordinates[..]), minX, minY, scale, height)
  {
    var screen := shape.screenCoordinates;
    for i := 0 to screen.Length
      invariant forall k :: 0 <= k < i ==> screen[k] == Translate(old(screen[k]), minX, minY, scale, height)
      invariant forall k :: i <= k < screen.Length ==> screen[k] == old(screen[k])
    {
      var coord := screen[i];
      screen[i] := Translate(coord, minX, minY, scale, height);
    }
  }

  /**
   * With a scale that fits the box's width and height into the canvas, every
   * point of the box lands on the canvas, x growing rightwards and y flipped
   * so that north is up.
   */
  lemma TranslateFitsCanvas(p: PointF, minX: real, maxX: real, minY: real, maxY: real,
                            scale: real, width: real, height: real)
    requires minX <= p.x <= maxX && minY <= p.y <= maxY
    requires 0.0 <= scale && scale * (maxX - minX) <= width && scale * (maxY - minY) <= height
    ensures var q := Translate(p, minX, minY, scale, height);
      0.0 <= q.x <= width && 0.0 <= q.y <= height
  {
    var dx, dy := p.x - minX, p.y - minY;
    assert 0.0 <= dx * scale <= (maxX - minX) * scale by {
      assert (maxX - minX) * scale - dx * scale == (maxX - p.x) * scale;
    }
    assert 0.0 <= dy * scale <= (maxY - minY) * scale by {
      assert (maxY - minY) * scale - dy * scale == (maxY - p.y) * scale;
    }
  }

  /** Translation keeps left-to-right order and reverses bottom-to-top order (for a non-negative scale). */
  lemma TranslateOrientation(p: PointF, q: PointF, minX: real, minY: real, scale: real, height: real)
    requires 0.0 <= scale
    ensures p.x <= q.x ==> Translate(p, minX, minY, scale, height).x <= Translate(q, minX, minY, scale, height).x
    ensures p.y <= q.y ==> Translate(p, minX, minY, scale, height).y >= Translate(q, minX, minY, scale, height).y
  {
    var px, qx := p.x + minX * -1.0, q.x + minX * -1.0;
    var py, qy := p.y + minY * -1.0, q.y + minY * -1.0;
    assert Translate(p, minX, minY, scale, height) == PointF(px * scale, height - py * scale);
    assert Translate(q, minX, minY, scale, height) == PointF(qx * scale, height - qy * scale);
    if p.x <= q.x {
      ScaleMonotone(px, qx, scale);
    }
    if p.y <= q.y {
      ScaleMonotone(py, qy, scale);
    }
  }

  lemma ScaleMonotone(a: real, b: real, scale: real)
    requires a <= b && 0.0 <= scale
    ensures a * scale <= b * scale
  {
    assert b * scale - a * scale == (b - a) * scale;
  }
}
