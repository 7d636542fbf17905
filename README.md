# Mapster tile core — a Dafny model

This project models the core of Mapster, a map renderer. Mapster reads
OpenStreetMap features from a memory-mapped binary data file and draws the
features of a bounding box into a tile image. Four pieces are modelled.

- **Tag classifier** (`Tags`, `tags.dfy`). The `PropertySetter` turns a
  feature's key/value tags into closed enumerations. A tag whose key starts
  with `highway`, `boundary`, `natural`, `landuse`, `admin_level` or `place`
  sets its field. The new value comes from the first entry of an ordered table
  whose string is a prefix of the tag's value, or is `NULL` when no entry
  matches. The tables are ordered sequences, because the lookup depends on the
  insertion order of .NET `Dictionary` keys. The fold over the tags is
  `ClassifyFrom`, and the class `PropertySetter` updates its fields in place
  with a loop.
- **Data file reader** (`MemoryMapped`, `datafile.dfy`). The mapped region is
  seen through typed views: a function from byte address to record. The record
  sizes are positive parameters. The module covers:
  - the offset arithmetic for tile headers, features, coordinate slices and
    string slices;
  - `GetTile`'s first-match scan;
  - `GetProperty`'s even-index rule;
  - `ForeachFeature`, the nested query loop.
  The query's visitor calls are returned as a trace together with the
  exception that ended the query, if any. The trace makes the early exit
  observable: a visitor's `false` ends only the current tile. The loops are
  methods proved equal to the functions `ScanFrom`, `QueryTiles` and `Query`,
  and the properties are lemmas about those functions.
- **Shapes** (`Shapes`, `shapes.dfy`). This covers:
  - the per-shape predicates (`IsRoad`, `IsNatural`, …);
  - the mapping from the natural class to the terrain type;
  - the `ZIndex` layers and the `IsPolygon` rule of each constructor;
  - the name and `ShouldRender` of a populated place;
  - the projection of every vertex into a new `ScreenCoordinates` array;
  - `TranslateAndScale`, which rewrites that array in place.
- **Tessellation and compositing** (`TileRenderer`, `renderer.dfy`).
  `Tessellate` is a 13-way, first-true-wins dispatch. It queues exactly one
  shape under its `ZIndex` and widens the bounding box. `Render` drains a
  min-priority queue, translating every shape's array exactly once.

Two facts follow from the code and are proved:
- The classifier never fills `water`, `railway`, `building`,
  `publicAmenity`, `privateAmenity` or `name`. So five of the thirteen
  `Tessellate` branches can never be taken.
- A labelled populated place is shown under its label, never under a name
  tag; an unlabelled one is not drawn.

The `GeoFeature` constructor draws the bare-rock group (`BARE_ROCK`, `ROCK`,
`SCREE`) as Forest even though it computes a separate `mountains` flag. The
model follows the code, so `Shapes.NaturalToTerrain` never yields Mountains or
Hills.

A `MapFeatureData` carries its property dictionary as an ordered sequence of
pairs. Its `Properties()` is the classification that a `PropertySetter` built
from those pairs holds (`Tags.PropertySetter.constructor` proves that the
class computes exactly `Tags.Classify`). Nothing in the core writes a
`PropertySetter`'s public setters or its `name` field after construction, and
the model takes the classification to stay as constructed. Both facts above
rest on that.

## Model

| member | source | states |
|---|---|---|
| Tags.StartsWithIsPrefix | Common/MemoryMappedTypes/DataFile.cs:122-123 | The ordinal `StartsWith` used on keys and values holds exactly when the prefix is a sequence prefix of the string. |
| Tags.FirstPrefix | Common/MemoryMappedTypes/DataFile.cs:123 | `Keys.Where(k => value.StartsWith(k)).FirstOrDefault`: the result is the first table index whose key is a prefix of the value, with no earlier such index; none means no key is a prefix. |
| Tags.LookupAt | Common/MemoryMappedTypes/DataFile.cs:123-124 | If entry `i` is the first key that is a prefix of the value, `TryGetValue` of that key yields entry `i`'s enum. |
| Tags.Lookup | Common/MemoryMappedTypes/DataFile.cs:123-124 | The field value for one tag value: the enum of the first table key, in insertion order, that is a prefix of the value, or NULL when none is (`TryGetValue` of the empty key). |
| Tags.Owner | Common/MemoryMappedTypes/DataFile.cs:120-150 | The `switch (true)` case a key falls into: the first of highway, boundary, natural, landuse, admin_level, place that the key starts with, or none. |
| Tags.Apply | Common/MemoryMappedTypes/DataFile.cs:120-151 | One loop pass: the field of the case that owns the key is overwritten by its table lookup. |
| Tags.ApplyLeavesOtherFields | Common/MemoryMappedTypes/DataFile.cs:120-151 | A tag of no case leaves every field alone, and no tag writes water, railway, building, either amenity or `name`. |
| Tags.ClassifyFrom | Common/MemoryMappedTypes/DataFile.cs:117-153 | The `foreach` over the dictionary: the tags applied in enumeration order to the given fields. |
| Tags.Classify | Common/MemoryMappedTypes/DataFile.cs:107-110 | What a new PropertySetter holds: every tag applied in order to the all-NULL fields. |
| Tags.HighwayExamples | Common/MemoryMappedTypes/DataFile.cs:170-179 | "motorway_link" classifies as MOTORWAY, "trunk_link" as TRUNK, and a value with no matching prefix ("xyz") as NULL. |
| Tags.LandUseExamples | Common/MemoryMappedTypes/DataFile.cs:228-249 | Land use "grassland" classifies as GRASS: none of the 13 earlier keys is a prefix of it, and "grass" is. |
| Tags.ClassifyFromLastWins | Common/MemoryMappedTypes/DataFile.cs:114-154 | After any run of tags, each of the six recognised fields is the lookup of the last value of its category, or is unchanged if no tag of that category occurs; the other five fields and `name` are untouched. |
| Tags.ClassifyLastWins | Common/MemoryMappedTypes/DataFile.cs:23-154 | From a fresh PropertySetter, `water`, `railway`, `building`, both amenities and `name` stay NULL whatever the tags; each recognised field is NULL unless a tag of its category occurs. |
| Tags.LaterTagOverwrites | Common/MemoryMappedTypes/DataFile.cs:117-125 | A later `highway…` tag decides the highway field whatever came before, and resets it to NULL when no table key is a prefix of its value. |
| Tags.UnrecognisedTagIgnored | Common/MemoryMappedTypes/DataFile.cs:117-153 | A tag whose key has none of the six prefixes changes nothing, wherever it occurs in the run. |
| Tags.PropertySetter.constructor | Common/MemoryMappedTypes/DataFile.cs:107-110 | A new PropertySetter holds exactly `Classify(properties)`. |
| Tags.PropertySetter.SetDictionaries | Common/MemoryMappedTypes/DataFile.cs:114-154 | The loop leaves the fields equal to the old fields with every tag applied in order. |
| Tags.PropertySetter.SetEntry | Common/MemoryMappedTypes/DataFile.cs:119-152 | One `switch (true)` pass: the field of the first matching key prefix is overwritten by its table lookup, and nothing else changes. |
| MemoryMapped.DataFile.constructor | Common/MemoryMappedTypes/DataFile.cs:413-419 | A new reader is over the given region and record sizes, and is not yet disposed. |
| MemoryMapped.DataFile.Dispose | Common/MemoryMappedTypes/DataFile.cs:421-426 | Disposing marks the reader disposed; resources are released on the first call only (the release count stays at most one). |
| MemoryMapped.DataFile.DisposeCore | Common/MemoryMappedTypes/DataFile.cs:428-441 | `Dispose(bool)`: resources are released only when not yet disposed and `disposing` is true; the flag is set either way. |
| MemoryMapped.DataFile.TileHeaderAddress | Common/MemoryMappedTypes/DataFile.cs:444-447 | Entry i of the tile index starts `i` entries past the file header. |
| MemoryMapped.DataFile.GetNthTileHeader | Common/MemoryMappedTypes/DataFile.cs:444-447 | The i-th tile index entry, read at `TileHeaderAddress(i)`. |
| MemoryMapped.DataFile.FeatureAddress | Common/MemoryMappedTypes/DataFile.cs:467-470 | Feature i of a tile starts `i` records past the tile's block header. |
| MemoryMapped.DataFile.GetFeature | Common/MemoryMappedTypes/DataFile.cs:467-470 | The i-th feature of a tile, read at `FeatureAddress(i, offset)`. |
| MemoryMapped.DataFile.LocateTileFrom | Common/MemoryMappedTypes/DataFile.cs:453-463 | The scan from entry `i`: none when no later entry has the ID; otherwise the block header and offset of the first such entry. |
| MemoryMapped.DataFile.LocateTile | Common/MemoryMappedTypes/DataFile.cs:450-464 | No tile exactly when no entry among `TileCount` has the ID; otherwise the block header at the offset of the first matching entry, in index order. |
| MemoryMapped.DataFile.GetTile | Common/MemoryMappedTypes/DataFile.cs:450-464 | The loop with early return computes `LocateTile`, and returns `(null, 0)` when no entry matches. |
| MemoryMapped.DataFile.GetCoordinates | Common/MemoryMappedTypes/DataFile.cs:473-476 | A negative count raises (span length); otherwise `count` coordinates, element k being the record at `offset + (ith + k) * CoordinateSize`. |
| MemoryMapped.DataFile.CoordinatesAreTileSlice | Common/MemoryMappedTypes/DataFile.cs:473-476 | A feature's coordinates are the slice `[ith, ith + count)` of the tile's coordinate array. |
| MemoryMapped.DataFile.GetString | Common/MemoryMappedTypes/DataFile.cs:479-483 | A negative length raises; otherwise `Length` characters, character k at `charsOffset + 2 * (Offset + k)`. |
| MemoryMapped.DataFile.StringIsBlobSlice | Common/MemoryMappedTypes/DataFile.cs:479-483 | A string is the slice `[Offset, Offset + Length)` of the tile's character blob. |
| MemoryMapped.DataFile.GetProperty | Common/MemoryMappedTypes/DataFile.cs:486-495 | An odd index raises an argument error; otherwise the pair is (string i, string i + 1), failing exactly when one of them fails. |
| MemoryMapped.DataFile.ReadProperties | Common/MemoryMappedTypes/DataFile.cs:536-541 | Filling succeeds exactly when each of the first n pairs reads and no key repeats. A filled dictionary has one pair per property, with distinct keys, pair p read at string index `2p + PropertiesOffset`. An odd `PropertiesOffset` with any property raises. |
| MemoryMapped.DataFile.ReadPropertiesErrorPersists | Common/MemoryMappedTypes/DataFile.cs:537-541 | Once filling the dictionary has raised, reading further pairs raises the same exception. |
| MemoryMapped.DataFile.DuplicateKeyRaises | Common/MemoryMappedTypes/DataFile.cs:540 | Two property pairs with the same key make `Dictionary.Add` raise. |
| MemoryMapped.DataFile.FeatureStepCases | Common/MemoryMappedTypes/DataFile.cs:515-541 | For one feature: a negative coordinate count raises, and so does a negative label length, whether or not the feature is in the box. Otherwise the visitor is due a call exactly when some vertex is inside the box. The call carries the feature's ID, type, coordinates and dictionary, and its label: empty for a negative `LabelOffset`, else string `LabelOffset` of the tile. An odd property offset raises for a feature in the box. |
| MemoryMapped.DataFile.FeatureStepSucceeds | Common/MemoryMappedTypes/DataFile.cs:515-541 | A feature is read without an exception exactly when its coordinate count and label length are not negative and, if a vertex is in the box, its property count is not negative and every pair reads with no repeated key. |
| MemoryMapped.DataFile.PropertiesOf | Common/MemoryMappedTypes/DataFile.cs:536-541 | The feature's dictionary: a negative `PropertyCount` raises as a capacity, else all its pairs are read in order. |
| MemoryMapped.DataFile.LabelOf | Common/MemoryMappedTypes/DataFile.cs:528-532 | The label: empty for a negative `LabelOffset`, else string `LabelOffset` of the tile. |
| MemoryMapped.DataFile.FeatureStep | Common/MemoryMappedTypes/DataFile.cs:515-541 | One feature: its exception, no call (no vertex in the box), or the data the visitor gets. |
| MemoryMapped.DataFile.ScanFrom | Common/MemoryMappedTypes/DataFile.cs:513-555 | The features of one tile from j on, in order; the scan stops at an exception or after the first call the visitor rejects. |
| MemoryMapped.DataFile.TileRun | Common/MemoryMappedTypes/DataFile.cs:508-555 | One tile ID: nothing for a tile missing from the index, else the scan of its features. |
| MemoryMapped.DataFile.QueryTiles | Common/MemoryMappedTypes/DataFile.cs:506-557 | The tiles in order, each tile's run appended, until one raises. |
| MemoryMapped.DataFile.Query | Common/MemoryMappedTypes/DataFile.cs:498-558 | `ForeachFeature`: nothing without an action, else the runs of all tiles. |
| MemoryMapped.DataFile.CandidatesAreInside | Common/MemoryMappedTypes/DataFile.cs:517-534 | Every candidate feature of a tile has a vertex inside the box. |
| MemoryMapped.DataFile.ScanIsTruncatedCandidates | Common/MemoryMappedTypes/DataFile.cs:513-555 | The calls made on a tile are a prefix of its candidates. Every call but the last was accepted. A scan that stops early stops at a rejection. A scan that ends in an exception rejected nothing. |
| MemoryMapped.DataFile.TruncationIsUnique | Common/MemoryMappedTypes/DataFile.cs:513-555 | The truncation is unique: the visitor's answers fix where the scan of a tile stops and how it ends. |
| MemoryMapped.DataFile.AcceptingScanSeesAllCandidates | Common/MemoryMappedTypes/DataFile.cs:513-555 | A visitor that accepts everything is called for every candidate of the tile. |
| MemoryMapped.DataFile.QueryTilesAppend | Common/MemoryMappedTypes/DataFile.cs:506-557 | A query over tiles `a + b` is the query over `a` followed by the one over `b`, unless `a` raised: a `false` from the visitor does not stop later tiles. |
| MemoryMapped.DataFile.MissingTileSkipped | Common/MemoryMappedTypes/DataFile.cs:508-512 | A tile ID missing from the index contributes nothing, wherever it occurs. |
| MemoryMapped.DataFile.TileRunCallsAreInside | Common/MemoryMappedTypes/DataFile.cs:513-555 | Every call made on one tile is for a feature with a vertex inside the box. |
| MemoryMapped.DataFile.QueryCallsAreInside | Common/MemoryMappedTypes/DataFile.cs:505-557 | Every call of a query is for a feature with a vertex inside the box. |
| MemoryMapped.DataFile.NoActionNoCalls | Common/MemoryMappedTypes/DataFile.cs:500-503 | With a null action the query makes no call and raises nothing. |
| MemoryMapped.DataFile.AnyCoordinateInside | Common/MemoryMappedTypes/DataFile.cs:517-526 | The vertex loop with `break` answers true exactly when some coordinate is inside the box. |
| MemoryMapped.DataFile.BuildProperties | Common/MemoryMappedTypes/DataFile.cs:536-541 | The dictionary loop: a negative capacity raises, and otherwise the result is `ReadProperties` of all pairs, including its exceptions. |
| MemoryMapped.DataFile.ReadFeature | Common/MemoryMappedTypes/DataFile.cs:515-541 | The body of the feature loop computes `FeatureStep`: the exception, no call, or the data for the visitor. |
| MemoryMapped.DataFile.ScanTile | Common/MemoryMappedTypes/DataFile.cs:513-556 | The feature loop of one tile computes `ScanFrom`: its calls and its exception. |
| MemoryMapped.DataFile.VisitTile | Common/MemoryMappedTypes/DataFile.cs:508-556 | One pass of the tile loop computes `TileRun`: nothing for a tile missing from the index, else the tile's feature scan. |
| MemoryMapped.DataFile.ForeachFeature | Common/MemoryMappedTypes/DataFile.cs:498-558 | The whole nested loop computes `Query`: the visitor calls in order and the exception that ended the query. |
| Shapes.ZIndex | Rendering/TileRenderer/RenderingTypes.cs:23-50 | The layer of each shape: a GeoFeature's by its type, and the initial value of every other shape. |
| Shapes.IsNatural | Rendering/TileRenderer/RenderingTypes.cs:164-167 | A polygon whose natural class is not NULL. |
| Shapes.IsForest | Rendering/TileRenderer/RenderingTypes.cs:169-172 | A feature whose boundary is FOREST. |
| Shapes.IsLanduseForestOrOrchard | Rendering/TileRenderer/RenderingTypes.cs:174-176 | A feature whose land use is FOREST or ORCHARD. |
| Shapes.IsBuilding | Rendering/TileRenderer/RenderingTypes.cs:178-181 | A polygon whose building class is not NULL. |
| Shapes.IsPublicAmenity | Rendering/TileRenderer/RenderingTypes.cs:183-186 | A polygon whose public amenity is not NULL. |
| Shapes.IsPrivateAmenity | Rendering/TileRenderer/RenderingTypes.cs:188-191 | A polygon whose private amenity is not NULL. |
| Shapes.IsLanduseResidential | Rendering/TileRenderer/RenderingTypes.cs:193-199 | A feature whose land use is one of the nine built-up values. |
| Shapes.IsLandusePlain | Rendering/TileRenderer/RenderingTypes.cs:201-207 | A feature whose land use is one of the seven open-land values. |
| Shapes.IsRailway | Rendering/TileRenderer/RenderingTypes.cs:236-239 | A feature whose railway class is not NULL. |
| Shapes.IsPopulatedPlace | Rendering/TileRenderer/RenderingTypes.cs:283-292 | A Point whose place is CITY, TOWN, LOCALITY or HAMLET. |
| Shapes.IsBorder | Rendering/TileRenderer/RenderingTypes.cs:318-323 | A feature with boundary ADMINISTRATIVE and admin level 2. |
| Shapes.IsWaterway | Rendering/TileRenderer/RenderingTypes.cs:356-359 | A non-Point feature whose water class is not NULL. |
| Shapes.IsRoad | Rendering/TileRenderer/RenderingTypes.cs:392-395 | A non-Point feature whose highway class is not NULL. |
| Shapes.IsWhiteSpace | Rendering/TileRenderer/RenderingTypes.cs:276 | `char.IsWhiteSpace`: the Unicode separators and the control characters it counts as blank. |
| Shapes.IsNullOrWhiteSpace | Rendering/TileRenderer/RenderingTypes.cs:276 | `string.IsNullOrWhiteSpace`: no name, or a name of blank characters only. |
| Shapes.Project | Rendering/TileRenderer/RenderingTypes.cs:104-105 | One vertex on the screen: `(lonToX(Longitude), latToY(Latitude))`. |
| Shapes.Translate | Rendering/TileRenderer/RenderingTypes.cs:411 | One point in canvas pixels: shifted to the box corner, scaled, and flipped vertically. |
| Shapes.DrawingLayers | Rendering/TileRenderer/RenderingTypes.cs:23-50 | Layers from the bottom: terrain (8–13), border 30, water area and waterway 40, residential 41, railway 45, road 50, populated place 60; the fallback 7 is never returned. |
| Shapes.NaturalToTerrain | Rendering/TileRenderer/RenderingTypes.cs:110-155 | Water exactly for WATER; Desert exactly for BEACH/SAND; Forest exactly for WOOD/TREE_ROW/BARE_ROCK/ROCK/SCREE; Plain exactly for FELL/GRASSLAND/HEATH/MOOR/SCRUB/WETLAND; never Mountains, Hills or Residential (so Unknown otherwise). |
| Shapes.PredicateGuards | Rendering/TileRenderer/RenderingTypes.cs:164-207 | A populated place is a Point; roads and waterways are not Points; natural, building and amenity shapes are Polygons; a national border is never a forest boundary. |
| Shapes.LandUseGroupsDisjoint | Rendering/TileRenderer/RenderingTypes.cs:174-207 | The forest/orchard, plain and residential land-use groups are pairwise disjoint. |
| Shapes.UnfilledFieldsNeverMatch | Rendering/TileRenderer/RenderingTypes.cs:178-191 | `isBuilding`, both amenity tests, `isRailway` and `isWaterway` are false for every feature, because the classifier never fills their fields. |
| Shapes.PlaceLabel | Rendering/TileRenderer/RenderingTypes.cs:267-278 | A place is drawn exactly when it has a label; an unlabelled place is named "Unknown"; a labelled one uses its name unless that is null or whitespace, else the label; the shown name is never empty. |
| Shapes.PlaceIsShownUnderLabel | Rendering/TileRenderer/RenderingTypes.cs:267-278 | For every feature read from the data file, a labelled place is shown under its label and an unlabelled one is not drawn. |
| Shapes.ProjectAll | Rendering/TileRenderer/RenderingTypes.cs:102-105 | One screen point per vertex, in order: point i is `(lonToX(c[i].Longitude), latToY(c[i].Latitude))`. |
| Shapes.ProjectCoordinates | Rendering/TileRenderer/RenderingTypes.cs:102-105 | The constructors' loop fills a new array of the input's length with `ProjectAll`. |
| Shapes.NewGeoFeatureOfType | Rendering/TileRenderer/RenderingTypes.cs:98-106 | `GeoFeature(c, type)` is always a polygon of the given type. |
| Shapes.NewGeoFeature | Rendering/TileRenderer/RenderingTypes.cs:108-162 | `GeoFeature(c, feature)` is a polygon exactly when the geometry is Polygon, and its type is `NaturalToTerrain` of the natural class. |
| Shapes.NewRailway | Rendering/TileRenderer/RenderingTypes.cs:227-234 | A railway is never a polygon. |
| Shapes.NewPopulatedPlace | Rendering/TileRenderer/RenderingTypes.cs:260-279 | A populated place is never a polygon, and its name and drawing flag are `PlaceLabel` of the label and name. |
| Shapes.NewBorder | Rendering/TileRenderer/RenderingTypes.cs:307-314 | A border is never a polygon. |
| Shapes.NewWaterway | Rendering/TileRenderer/RenderingTypes.cs:345-352 | A waterway is a polygon exactly when its argument says so. |
| Shapes.NewRoad | Rendering/TileRenderer/RenderingTypes.cs:381-388 | A road is a polygon exactly when its argument says so. |
| Shapes.TranslateAll | Rendering/TileRenderer/RenderingTypes.cs:408-413 | Each point is moved to `((x - minX) * scale, height - (y - minY) * scale)`, in order, keeping the length. |
| Shapes.TranslateAndScale | Rendering/TileRenderer/RenderingTypes.cs:406-414 | The array is rewritten in place to `TranslateAll` of its old contents, and nothing else changes. |
| Shapes.TranslateFitsCanvas | Rendering/TileRenderer/RenderingTypes.cs:406-414 | With a scale that fits the box into the canvas, every point of the box lands within `[0, width] × [0, height]`. |
| Shapes.TranslateOrientation | Rendering/TileRenderer/RenderingTypes.cs:406-414 | Translation keeps left-to-right order and flips bottom-to-top order. |
| TileRenderer.Holds | Rendering/TileRenderer/TileRenderer.cs:33-100 | The predicate each `switch (true)` branch tests, in the order the branches are listed in `Rules`. |
| TileRenderer.SelectRule | Rendering/TileRenderer/TileRenderer.cs:33-100 | The branch taken: the first in `Rules` whose predicate holds, if any. |
| TileRenderer.RuleShape | Rendering/TileRenderer/TileRenderer.cs:33-100 | The kind and polygon flag of the shape each branch constructs. |
| TileRenderer.Include | Rendering/TileRenderer/TileRenderer.cs:109-112 | One pass of the bounding-box loop: each bound moved out to the point if needed. |
| TileRenderer.Widen | Rendering/TileRenderer/TileRenderer.cs:107-113 | The box after the loop has seen the points in order. |
| TileRenderer.FirstHolding | Rendering/TileRenderer/TileRenderer.cs:33-100 | The first branch from `i` on whose predicate holds, with no earlier branch holding; none when no branch from `i` on holds. |
| TileRenderer.SelectRuleIsFirstTrue | Rendering/TileRenderer/TileRenderer.cs:33-100 | `Tessellate` takes a branch whose predicate holds and no earlier predicate holds; it takes none exactly when no predicate holds. |
| TileRenderer.OrderDecides | Rendering/TileRenderer/TileRenderer.cs:19-62 | A natural polygon is terrain whatever else it is; otherwise a road beats a border; otherwise a border is a border. |
| TileRenderer.WaterAreaScenario | Rendering/TileRenderer/TileRenderer.cs:35-39 | A polygon with natural class WATER becomes a filled water area on layer 40. |
| TileRenderer.DeadBranches | Rendering/TileRenderer/TileRenderer.cs:42-86 | The railway, water, building and amenity branches are never taken. |
| TileRenderer.WidenEncloses | Rendering/TileRenderer/TileRenderer.cs:107-113 | The widened box contains the old box and every screen point, and each bound is the old bound or some point's coordinate. |
| TileRenderer.ShapeQueue.Enqueue | Rendering/TileRenderer/TileRenderer.cs:105 | The queue gains exactly the given entry. |
| TileRenderer.ShapeQueue.Dequeue | Rendering/TileRenderer/TileRenderer.cs:132 | Removes and returns one entry of least priority; the rest stay queued. |
| TileRenderer.ShapeQueue.Count | Rendering/TileRenderer/TileRenderer.cs:130 | The number of queued entries. |
| TileRenderer.Tessellate | Rendering/TileRenderer/TileRenderer.cs:11-117 | No shape exactly when no branch applies, and then the queue and box are unchanged. Otherwise the shape has the kind and polygon flag of the selected branch and a new array of projected vertices; the queue gains exactly that shape keyed by its ZIndex; the box is widened over its points. |
| TileRenderer.TessellateKeepsQueueWellFormed | Rendering/TileRenderer/TileRenderer.cs:105 | Queuing a shape with a new array keeps every entry keyed by its layer and no array shared. |
| TileRenderer.DrainStep | Rendering/TileRenderer/TileRenderer.cs:130-135 | Taking a least entry out and drawing it keeps the drawn entries in order and no later than anything queued, and keeps the queued and drawn entries together equal to the original queue. |
| TileRenderer.DrawNext | Rendering/TileRenderer/TileRenderer.cs:132-134 | One pass of the drain loop: a least entry is dequeued and its array, and only its array, is translated. |
| TileRenderer.Render | Rendering/TileRenderer/TileRenderer.cs:119-138 | The queue ends empty. The drawn entries are a permutation of the queued ones, in non-decreasing priority, and every queued shape's array is translated exactly once. |
| TileRenderer.DrawnInLayerOrder | Rendering/TileRenderer/TileRenderer.cs:130-135 | For a queue filled by `Tessellate`, shapes are drawn in non-decreasing ZIndex. |

## Left out

- Memory mapping, acquiring the view's base address and releasing handles are OS I/O. The region is an immutable set of typed views, and `Dispose` keeps only the flag logic plus a release counter.
- The record layouts and `Marshal.SizeOf` values are not part of this model; the sizes are positive parameters.
- `TiligSystem.GetTilesForBoundingBox` is external. `ForeachFeature` takes the tile list, and `BoundingBox.Contains` is a predicate parameter.
- `MercatorProjection.lonToX/latToY` are a pair of uninterpreted functions. The `(float)` casts are not modelled.
- `float` arithmetic is modelled over reals: no rounding, infinities or NaN. This applies to `Shapes.TranslateAll`, `Shapes.TranslateAndScale` and the bounding box updates in `TileRenderer.Tessellate`.
- TileRenderer.Render: the scale is a parameter. The computation `Math.Min(Width / (MaxX - MinX), Height / (MaxY - MinY))` divides floats, and a degenerate box gives infinity, which reals cannot express. `Shapes.TranslateFitsCanvas` states what a fitting scale achieves.
- TileRenderer.Render: canvas creation, the background fill and every `Render(IImageProcessingContext)` body are ImageSharp drawing. `drawn` is the sequence of entries handed to the drawing calls.
- TileRenderer.Render requires that no two queued shapes share a coordinate array. Shapes built by `Tessellate` always satisfy this (`TileRenderer.TessellateKeepsQueueWellFormed`). With a shared array, the source would translate that array twice.
- TileRenderer.ShapeQueue.Dequeue requires a non-empty queue. The .NET queue raises on an empty one, but `Render` only dequeues while `Count > 0`.
- The internals of .NET `PriorityQueue` are not modelled. Which of several equal-priority entries comes out first is left open: a water area and a waterway share layer 40.
- The `ZIndex` setters of the shapes other than GeoFeature are never called in the core, so those layers are constants.
- Table keys are assumed distinct and non-empty, so `TryGetValue` on the first matching key yields that entry. The tables in the source satisfy this.
- `string.StartsWith(string)` is modelled as an ordinal prefix test. The culture-sensitive comparison .NET applies by default is not modelled.
- 32-bit `int` overflow in the offset arithmetic is not modelled: integers are unbounded. `TileHeaderEntry.OffsetInBytes` is an unsigned 64-bit value and is modelled as a `nat`.
- `ForeachFeature` builds a `PropertySetter` for each visited feature. In the model the visitor receives the property dictionary, and `MapFeatureData.Properties()` is the classification that `Tags.PropertySetter.constructor` is proved to compute.
- `GeometryType` is not part of this model; it is represented by `Point | Line | Polygon`, the geometry kinds the shape predicates distinguish.
- The visitor (`MapFeatureDelegate`) is a pure function from feature data to a boolean. A delegate whose answers depend on earlier calls, or that has side effects, is not modelled. The trace records which calls were made and in what order, not what the delegate did with them.
- `PropertySetter`'s public setters are not modelled, and `MapFeatureData.Properties()` is the classification as constructed. `TileRenderer.DeadBranches`, `Shapes.UnfilledFieldsNeverMatch` and `Shapes.PlaceIsShownUnderLabel` hold only while nothing writes a setter, or the `name` field, after construction. No code in the core does.
- Reading a label span and the other raw memory reads cannot fail beyond the negative-length check, because out-of-range addresses are not modelled.
